/** The RabbitMQ client: publishing with retries, the consumer loop started by
    `Listen` with its panic recovery, and the checks of the constructor.

    The broker is not modelled; every broker call is an outcome the caller
    supplies: `broker(k)` says whether `PublishWithContext` of attempt `k`
    succeeds, an `Incarnation` says how one run of `Listen` goes. Time is not
    modelled either: a `time.Sleep(d)` is the event `Slept(d)`. Every
    operation returns the trace of what it did, in order. */
module RabbitMQ {
  import opened Common
  import opened Cryptography

  // ---------------------------------------------------------------------------
  // Retries and the publisher policy
  // ---------------------------------------------------------------------------

  const UintModulus: int := 0x1_0000_0000_0000_0000

  /** A Go `int` on a 64-bit platform. */
  type Int = n: int | -0x8000_0000_0000_0000 <= n < 0x8000_0000_0000_0000

  /** `Retries`, a Go `uint`. */
  type Retries = n: int | 0 <= n < UintModulus

  /** `NewRetries`: the conversion `Retries(retries)` keeps a non-negative
      count and wraps a negative one around to a huge one. */
  function NewRetries(retries: Int): (r: Retries)
    ensures retries >= 0 ==> r == retries
    ensures retries < 0 ==> r == retries + UintModulus && r >= UintModulus / 2
  {
    retries % UintModulus
  }

  /** `LankyPublisherOption`. */
  datatype PublisherOption = PublisherOption(retries: Retries, delayRetries: Duration)

  /** The number of attempts and the delay after a failed attempt. */
  datatype Policy = Policy(retries: Retries, delay: Duration)

  /** The policy of one `Publish` call: one attempt and one second by default;
      an option overrides each of them only with a positive value. */
  function ResolvePolicy(option: Option<PublisherOption>): (p: Policy)
    ensures p.retries >= 1 && p.delay > 0
    ensures option.None? ==> p == Policy(1, Second)
    ensures option.Some? && option.value.retries > 0 ==> p.retries == option.value.retries
    ensures option.Some? && option.value.retries == 0 ==> p.retries == 1
    ensures option.Some? && option.value.delayRetries > 0 ==> p.delay == option.value.delayRetries
    ensures option.Some? && option.value.delayRetries <= 0 ==> p.delay == Second
  {
    match option
    case None => Policy(1, Second)
    case Some(o) =>
      Policy(if o.retries > 0 then o.retries else 1, if o.delayRetries > 0 then o.delayRetries else Second)
  }

  /** `LankyRabbitConf`. */
  datatype RabbitConf = RabbitConf(
    dsn: string,
    exchangeName: string,
    exchangeType: string,
    exchangeQueue: string,
    secret: string,
    enableDebugMessage: bool,
    rejoinDelay: Duration)

  /** A `sync.Mutex`. `Lock` on a held mutex would block its caller for ever,
      so the model may only call it on a free one; `Unlock` of a free mutex
      is a run-time error in Go. */
  class Mutex {
    var held: bool

    constructor ()
      ensures !held
    {
      held := false;
    }

    method Lock()
      requires !held
      modifies this
      ensures held
    {
      held := true;
    }

    method Unlock()
      requires held
      modifies this
      ensures !held
    {
      held := false;
    }
  }

  // ---------------------------------------------------------------------------
  // Publish
  // ---------------------------------------------------------------------------

  /** `amqp091.Publishing`, restricted to the fields `Publish` sets. */
  datatype Publishing = Publishing(contentType: string, messageId: string, body: seq<byte>)

  /** One `PublishWithContext` call: exchange, routing key and message. */
  datatype Call = Call(exchange: string, routingKey: string, msg: Publishing)

  /** What one attempt of `Publish` did, between its `mu.Lock()` and its
      `mu.Unlock()`: the encryption failed, or the broker refused or accepted
      the call; `slept` is the `time.Sleep` after a failure. */
  datatype AttemptRecord =
    | EncryptionFailed(attempt: nat, slept: Duration)
    | PublishRejected(attempt: nat, call: Call, slept: Duration)
    | PublishAccepted(attempt: nat, call: Call)

  /** Attempt `attempt` of `Publish` when the encryption of the message is
      `body`. */
  function AttemptOf(p: Policy, body: Result<seq<byte>, CryptoError>, exchange: string, topic: string,
                     uid: string, broker: nat -> bool, attempt: nat): AttemptRecord
  {
    if body.Err? then EncryptionFailed(attempt, p.delay)
    else
      var call := Call(exchange, topic, Publishing("text/plain", uid, body.value));
      if broker(attempt) then PublishAccepted(attempt, call) else PublishRejected(attempt, call, p.delay)
  }

  /** The attempts of `Publish` from attempt `attempt` on: the loop goes on
      after a failed attempt while attempts are left. The encryption `body` is
      the same for every attempt, since the cipher of an instance is
      deterministic. */
  function PublishFrom(p: Policy, body: Result<seq<byte>, CryptoError>, exchange: string, topic: string,
                       uid: string, broker: nat -> bool, attempt: nat): seq<AttemptRecord>
    requires 1 <= attempt <= p.retries
    decreases p.retries - attempt
  {
    var r := AttemptOf(p, body, exchange, topic, uid, broker, attempt);
    [r] + if r.PublishAccepted? || attempt == p.retries then []
          else PublishFrom(p, body, exchange, topic, uid, broker, attempt + 1)
  }

  /** The shape of every `Publish` run from `attempt` on: at least one attempt
      and at most the remaining ones, numbered consecutively; every attempt but
      the last failed; and the last succeeded unless no attempt was left. */
  lemma {:induction false} PublishRun(p: Policy, body: Result<seq<byte>, CryptoError>, exchange: string,
                                       topic: string, uid: string, broker: nat -> bool, attempt: nat)
    requires 1 <= attempt <= p.retries
    ensures var t := PublishFrom(p, body, exchange, topic, uid, broker, attempt);
      && 1 <= |t| <= p.retries - attempt + 1
      && (forall j :: 0 <= j < |t| ==> t[j] == AttemptOf(p, body, exchange, topic, uid, broker, attempt + j))
      && (forall j :: 0 <= j < |t| - 1 ==> !t[j].PublishAccepted?)
      && (t[|t| - 1].PublishAccepted? || |t| == p.retries - attempt + 1)
      && (forall k :: attempt <= k < attempt + |t| - 1 ==> body.Err? || !broker(k))
    decreases p.retries - attempt
  {
    var t := PublishFrom(p, body, exchange, topic, uid, broker, attempt);
    var r := AttemptOf(p, body, exchange, topic, uid, broker, attempt);
    if !r.PublishAccepted? && attempt < p.retries {
      var rest := PublishFrom(p, body, exchange, topic, uid, broker, attempt + 1);
      PublishRun(p, body, exchange, topic, uid, broker, attempt + 1);
      assert t == [r] + rest;
      forall j | 0 <= j < |t|
        ensures t[j] == AttemptOf(p, body, exchange, topic, uid, broker, attempt + j)
      {
        if j > 0 {
          assert t[j] == rest[j - 1];
        }
      }
    }
  }

  /** When every attempt fails (the message does not encrypt, or the broker
      refuses every call), exactly `retries` attempts are made, each followed
      by a sleep of the policy's delay; an encryption failure makes no publish
      call at all. */
  lemma PublishAllFail(p: Policy, body: Result<seq<byte>, CryptoError>, exchange: string,
                       topic: string, uid: string, broker: nat -> bool)
    requires p.retries >= 1
    requires body.Err? || forall k :: 1 <= k <= p.retries ==> !broker(k)
    ensures var t := PublishFrom(p, body, exchange, topic, uid, broker, 1);
      && |t| == p.retries
      && (forall j :: 0 <= j < |t| ==> !t[j].PublishAccepted? && t[j].slept == p.delay)
      && (body.Err? ==> forall j :: 0 <= j < |t| ==> t[j].EncryptionFailed?)
  {
    PublishRun(p, body, exchange, topic, uid, broker, 1);
  }

  /** If attempt `k` is the first whose publish call is accepted, exactly `k`
      attempts are made: `k - 1` refused ones, each followed by a sleep, then
      the accepted one, with no sleep after it. */
  lemma PublishFirstSuccess(p: Policy, body: Result<seq<byte>, CryptoError>, exchange: string,
                            topic: string, uid: string, broker: nat -> bool, k: nat)
    requires 1 <= k <= p.retries && body.Ok? && broker(k)
    requires forall j :: 1 <= j < k ==> !broker(j)
    ensures var t := PublishFrom(p, body, exchange, topic, uid, broker, 1);
      && |t| == k
      && t[k - 1].PublishAccepted? && t[k - 1].attempt == k
      && (forall j :: 0 <= j < k - 1 ==> t[j].PublishRejected? && t[j].slept == p.delay)
  {
    var t := PublishFrom(p, body, exchange, topic, uid, broker, 1);
    PublishRun(p, body, exchange, topic, uid, broker, 1);
  }

  /** Every publish call of one `Publish` carries the same message: the one
      `uid` as its id, content type "text/plain", the encrypted body, on the
      configured exchange with the topic as routing key. */
  lemma PublishSameMessage(p: Policy, body: Result<seq<byte>, CryptoError>, exchange: string,
                           topic: string, uid: string, broker: nat -> bool)
    requires p.retries >= 1
    ensures var t := PublishFrom(p, body, exchange, topic, uid, broker, 1);
      forall j :: 0 <= j < |t| && !t[j].EncryptionFailed? ==>
        body.Ok? && t[j].call == Call(exchange, topic, Publishing("text/plain", uid, body.value))
  {
    PublishRun(p, body, exchange, topic, uid, broker, 1);
  }

  // ---------------------------------------------------------------------------
  // The consumer loop
  // ---------------------------------------------------------------------------

  /** `amqp091.Delivery`, restricted to the fields the consumer reads. */
  datatype Delivery = Delivery(routingKey: string, messageId: string, body: seq<byte>)

  /** What a registered consumer's `Consume` does with a delivery. */
  datatype HandlerOutcome = Handled | HandlerError | HandlerPanic

  /** `LankyConsumer`: the `Consume` method of the registered consumer. */
  type Consumer = Delivery -> HandlerOutcome

  /** How the loop body dealt with one delivery. */
  datatype DeliveryResult =
    | NoConsumer
    | DecryptFailed
    | Handed(msg: Delivery, outcome: HandlerOutcome)

  /** One pass of the loop body: the topic and id it recorded, and what it
      did with the delivery. */
  datatype Handling = Handling(topic: string, id: string, result: DeliveryResult)

  /** One delivery, from `mu.Lock()` to the end of the loop body: its topic
      and id are recorded first; a delivery for an unregistered topic is
      neither decrypted nor handled; one that does not decrypt is not handled;
      otherwise the handler gets the delivery with its body, and only its body,
      replaced by the plaintext. */
  function Dispatch(crp: LankyCrypto, consumers: map<string, Consumer>, d: Delivery): (h: Handling)
    ensures h.topic == d.routingKey && h.id == d.messageId
    ensures h.result == NoConsumer <==> d.routingKey !in consumers
    ensures h.result == DecryptFailed <==>
      d.routingKey in consumers && Decryption(crp.aes, crp.Key(), crp.size, d.body).Err?
    ensures h.result.Handed? ==>
      && d.routingKey in consumers
      && Decryption(crp.aes, crp.Key(), crp.size, d.body).Ok?
      && h.result.msg == d.(body := Decryption(crp.aes, crp.Key(), crp.size, d.body).value)
      && h.result.outcome == consumers[d.routingKey](h.result.msg)
  {
    var topic := d.routingKey;
    if topic !in consumers then Handling(topic, d.messageId, NoConsumer)
    else
      match Decryption(crp.aes, crp.Key(), crp.size, d.body)
      case Err(_) => Handling(topic, d.messageId, DecryptFailed)
      case Ok(plain) =>
        var msg := d.(body := plain);
        Handling(topic, d.messageId, Handed(msg, consumers[topic](msg)))
  }

  /** The loop body reached `mu.Unlock()`: the handler succeeded. */
  predicate Released(h: Handling)
  {
    h.result.Handed? && h.result.outcome == Handled
  }

  predicate Panicked(h: Handling)
  {
    h.result.Handed? && h.result.outcome == HandlerPanic
  }

  /** How the consumer loop ends: the delivery channel closed, a handler
      panicked on delivery `i`, or the loop is stuck for ever in `mu.Lock()`
      before delivery `i`. */
  datatype LoopEnd = Drained | PanickedAt(i: nat) | BlockedAt(i: nat)

  datatype Run = Run(handled: seq<Handling>, end: LoopEnd)

  /** What the loop body does with each delivery, in order, if it gets to
      run on it. */
  function Dispatched(crp: LankyCrypto, consumers: map<string, Consumer>, ds: seq<Delivery>): (hs: seq<Handling>)
    ensures |hs| == |ds|
    ensures forall j :: 0 <= j < |ds| ==> hs[j] == Dispatch(crp, consumers, ds[j])
  {
    seq(|ds|, j requires 0 <= j < |ds| => Dispatch(crp, consumers, ds[j]))
  }

  /** The consumer loop from delivery `i` on, over what the loop body does
      with each delivery, when every path of the body releases the lock. */
  function ConsumeRun(hs: seq<Handling>, i: nat): Run
    requires i <= |hs|
    decreases |hs| - i
  {
    if i == |hs| then Run([], Drained)
    else if Panicked(hs[i]) then Run([hs[i]], PanickedAt(i))
    else
      var r := ConsumeRun(hs, i + 1);
      Run([hs[i]] + r.handled, r.end)
  }

  /** One delivery of the consumer loop that releases the lock on every
      path: a panic ends the run there, anything else is handled and the run
      goes on with the next delivery. */
  lemma ConsumeRunStep(hs: seq<Handling>, i: nat)
    requires i < |hs|
    ensures Panicked(hs[i]) ==> ConsumeRun(hs, i) == Run([hs[i]], PanickedAt(i))
    ensures !Panicked(hs[i]) ==>
      ConsumeRun(hs, i) == Run([hs[i]] + ConsumeRun(hs, i + 1).handled, ConsumeRun(hs, i + 1).end)
  {
  }

  /** The consumer loop as the source writes it: the lock is released only
      after a handled delivery, so after any other one (`held`) the next
      `mu.Lock()` never returns. */
  function ConsumeRunAsWritten(hs: seq<Handling>, i: nat, held: bool): Run
    requires i <= |hs|
    decreases |hs| - i
  {
    if i == |hs| then Run([], Drained)
    else if held then Run([], BlockedAt(i))
    else if Panicked(hs[i]) then Run([hs[i]], PanickedAt(i))
    else
      var r := ConsumeRunAsWritten(hs, i + 1, !Released(hs[i]));
      Run([hs[i]] + r.handled, r.end)
  }

  /** With the lock released on every path, the loop deals with the
      deliveries in order until the channel closes or a handler panics; it is
      never stuck. */
  lemma {:induction false} ConsumeRunHandlesAll(hs: seq<Handling>, i: nat)
    requires i <= |hs|
    ensures var r := ConsumeRun(hs, i);
      && |r.handled| <= |hs| - i
      && r.handled == hs[i..i + |r.handled|]
      && !r.end.BlockedAt?
      && (r.end == Drained <==> forall j :: i <= j < |hs| ==> !Panicked(hs[j]))
      && (r.end == Drained ==> |r.handled| == |hs| - i)
      && (r.end.PanickedAt? ==> r.end.i == i + |r.handled| - 1 && Panicked(hs[r.end.i]))
    decreases |hs| - i
  {
    if i < |hs| && !Panicked(hs[i]) {
      ConsumeRunHandlesAll(hs, i + 1);
      var r := ConsumeRun(hs, i + 1);
      assert [hs[i]] + hs[i + 1..i + 1 + |r.handled|] == hs[i..i + 1 + |r.handled|];
    }
  }

  /** As written, the first delivery that is not handled (no consumer, no
      decryption, or a handler error) leaves the lock held: the loop deals
      with nothing after it and is stuck before the next delivery. */
  lemma {:induction false} ConsumeAsWrittenStops(hs: seq<Handling>, i: nat, k: nat)
    requires i <= k && k + 1 < |hs|
    requires forall j :: i <= j < k ==> Released(hs[j])
    requires !Released(hs[k]) && !Panicked(hs[k])
    ensures ConsumeRunAsWritten(hs, i, false) == Run(hs[i..k + 1], BlockedAt(k + 1))
    decreases k - i
  {
    if i < k {
      ConsumeAsWrittenStops(hs, i + 1, k);
      assert [hs[i]] + hs[i + 1..k + 1] == hs[i..k + 1];
    }
  }

  /** What the loop as written deals with, from a free lock at delivery
      `i`: the deliveries in order, every one but the last of them handled
      and releasing the lock. */
  lemma {:induction false} ConsumeAsWrittenPrefix(hs: seq<Handling>, i: nat)
    requires i <= |hs|
    ensures var r := ConsumeRunAsWritten(hs, i, false);
      && |r.handled| <= |hs| - i
      && r.handled == hs[i..i + |r.handled|]
      && (forall j :: i <= j < i + |r.handled| - 1 ==> Released(hs[j]))
    decreases |hs| - i
  {
    if i < |hs| && !Panicked(hs[i]) {
      if Released(hs[i]) {
        ConsumeAsWrittenPrefix(hs, i + 1);
        var r := ConsumeRunAsWritten(hs, i + 1, false);
        assert ConsumeRunAsWritten(hs, i, false) == Run([hs[i]] + r.handled, r.end);
        assert [hs[i]] + hs[i + 1..i + 1 + |r.handled|] == hs[i..i + 1 + |r.handled|];
      } else {
        assert ConsumeRunAsWritten(hs, i, false) == Run([hs[i]], ConsumeRunAsWritten(hs, i + 1, true).end);
        assert hs[i..i + 1] == [hs[i]];
      }
    }
  }

  /** How the loop as written ends, from a free lock at delivery `i`: it
      drains the channel only once it dealt with every delivery and no
      handler panicked; a panic ends it on the last delivery it dealt with;
      and it is stuck before delivery `k` exactly when delivery `k - 1` was
      dealt with but left the lock held. */
  lemma {:induction false} ConsumeAsWrittenEnds(hs: seq<Handling>, i: nat)
    requires i <= |hs|
    ensures var r := ConsumeRunAsWritten(hs, i, false);
      && (r.end == Drained ==> |r.handled| == |hs| - i && forall j :: i <= j < |hs| ==> !Panicked(hs[j]))
      && (r.end.PanickedAt? ==> r.end.i == i + |r.handled| - 1 && r.end.i < |hs| && Panicked(hs[r.end.i]))
      && (r.end.BlockedAt? ==>
            && r.end.i == i + |r.handled| && i < r.end.i < |hs|
            && !Released(hs[r.end.i - 1]) && !Panicked(hs[r.end.i - 1]))
    decreases |hs| - i
  {
    if i < |hs| && !Panicked(hs[i]) {
      if Released(hs[i]) {
        ConsumeAsWrittenEnds(hs, i + 1);
        var r := ConsumeRunAsWritten(hs, i + 1, false);
        assert ConsumeRunAsWritten(hs, i, false) == Run([hs[i]] + r.handled, r.end);
      } else {
        assert ConsumeRunAsWritten(hs, i, false) == Run([hs[i]], ConsumeRunAsWritten(hs, i + 1, true).end);
      }
    }
  }

  /** A delivery for a topic nobody consumes, then one for a registered
      topic: as written the second is never handled and the loop is stuck,
      while the loop that unlocks on every path handles both. */
  lemma StuckAfterUnknownTopic(crp: LankyCrypto)
    ensures var consumers := map["orders.created" := (d: Delivery) => Handled];
      var hs := Dispatched(crp, consumers, [Delivery("orders.unknown", "m1", []), Delivery("orders.created", "m2", [])]);
      && hs[0] == Handling("orders.unknown", "m1", NoConsumer)
      && ConsumeRunAsWritten(hs, 0, false) == Run([hs[0]], BlockedAt(1))
      && ConsumeRun(hs, 0) == Run(hs, Drained)
  {
    var consumers := map["orders.created" := (d: Delivery) => Handled];
    var ds := [Delivery("orders.unknown", "m1", []), Delivery("orders.created", "m2", [])];
    var hs := Dispatched(crp, consumers, ds);
    assert hs[0] == Handling("orders.unknown", "m1", NoConsumer);
    assert !Panicked(hs[1]) by {
      assert hs[1].result.Handed? ==> hs[1].result.outcome == Handled;
    }
    ConsumeRunHandlesAll(hs, 0);
    assert hs[0..2] == hs;
  }

  /** The rejoin delay of the consumer: `RejoinDelay` when positive, else
      five seconds. */
  function RejoinDelay(conf: RabbitConf): (d: Duration)
    ensures d > 0
    ensures conf.rejoinDelay > 0 ==> d == conf.rejoinDelay
    ensures conf.rejoinDelay <= 0 ==> d == 5 * Second
  {
    if conf.rejoinDelay > 0 then conf.rejoinDelay else 5 * Second
  }

  // ---------------------------------------------------------------------------
  // Listen
  // ---------------------------------------------------------------------------

  /** How one run of `Listen` goes at the broker: the outcome of each
      declaration, of each topic's bind, of starting the consumer, and the
      deliveries the consumer then receives until the channel closes. */
  datatype Incarnation = Incarnation(
    exchangeDeclared: bool,
    queueDeclared: bool,
    bindAccepted: string -> bool,
    consumeStarted: bool,
    deliveries: seq<Delivery>)

  datatype ListenStage = ExchangeDeclare | QueueDeclare | ConsumeStart

  datatype ListenEvent =
    | Joined(bound: set<string>, unbound: set<string>)
    | Consumed(run: Run)
    | Rejoined(delay: Duration)

  /** How listening ends: a fatal broker error, the channel closing, the
      consumer stuck for ever in `mu.Lock()`, or the end of the modelled
      runs. */
  datatype ListenEnd = Fatal(stage: ListenStage) | ChannelClosed | Stuck | NoMoreIncarnations

  /** The binds of one run: every topic of the consumer map is either bound
      or, when the broker refuses its bind, only logged. */
  function Binding(consumers: map<string, Consumer>, inc: Incarnation): (e: ListenEvent)
    ensures e.Joined? && e.bound + e.unbound == consumers.Keys && e.bound !! e.unbound
    ensures forall t :: t in e.bound <==> t in consumers && inc.bindAccepted(t)
  {
    Joined(set t | t in consumers && inc.bindAccepted(t), set t | t in consumers && !inc.bindAccepted(t))
  }

  /** The consumer loop, as written, over the deliveries of one run. */
  function RunOf(crp: LankyCrypto, consumers: map<string, Consumer>, inc: Incarnation): Run
  {
    ConsumeRunAsWritten(Dispatched(crp, consumers, inc.deliveries), 0, false)
  }

  /** The shape of every trace of `Listen` over a consumer map with topics
      `keys` and a rejoin delay `delay`:
      - every run binds every topic, each either bound or only logged;
      - every rejoin waits `delay` and follows at once a run that panicked;
      - every run that panicked is followed at once by a rejoin (recovery);
      - every run but the last ended in a panic;
      - listening ends stuck exactly when the last run left the lock held
        before a delivery, and with the channel closed exactly when the
        last run drained its deliveries. */
  predicate ListenTrace(keys: set<string>, delay: Duration, r: (seq<ListenEvent>, ListenEnd))
  {
    var ev := r.0;
    && (forall j :: 0 <= j < |ev| && ev[j].Joined? ==> ev[j].bound + ev[j].unbound == keys && ev[j].bound !! ev[j].unbound)
    && (forall j :: 0 <= j < |ev| && ev[j].Rejoined? ==>
          ev[j].delay == delay && 0 < j && ev[j - 1].Consumed? && ev[j - 1].run.end.PanickedAt?)
    && (forall j :: 0 <= j < |ev| && ev[j].Consumed? && ev[j].run.end.PanickedAt? ==>
          j + 1 < |ev| && ev[j + 1] == Rejoined(delay))
    && (forall j :: 0 <= j < |ev| - 1 && ev[j].Consumed? ==> ev[j].run.end.PanickedAt?)
    && (r.1 == Stuck <==> 0 < |ev| && ev[|ev| - 1].Consumed? && ev[|ev| - 1].run.end.BlockedAt?)
    && (r.1 == ChannelClosed <==> 0 < |ev| && ev[|ev| - 1].Consumed? && ev[|ev| - 1].run.end.Drained?)
  }

  /** A run that panicked, its rejoin, then a trace of the runs after it,
      is a trace. */
  lemma PanickedRunTrace(keys: set<string>, delay: Duration, joined: ListenEvent, run: Run,
                         rest: (seq<ListenEvent>, ListenEnd))
    requires joined.Joined? && joined.bound + joined.unbound == keys && joined.bound !! joined.unbound
    requires run.end.PanickedAt?
    requires ListenTrace(keys, delay, rest)
    ensures ListenTrace(keys, delay, ([joined, Consumed(run), Rejoined(delay)] + rest.0, rest.1))
  {
    var head := [joined, Consumed(run), Rejoined(delay)];
    var ev := head + rest.0;
    forall j | 3 <= j < |ev|
      ensures ev[j] == rest.0[j - 3]
    {
    }
    if 0 < |rest.0| {
      assert ev[|ev| - 1] == rest.0[|rest.0| - 1];
    } else {
      assert ev[|ev| - 1] == Rejoined(delay);
    }
  }

  /** `Listen` over successive runs: the exchange, the queue and the consumer
      are fatal when they fail, a failed bind is only logged; the consumer
      then runs the loop as written. After a handler panic it waits the
      rejoin delay and listens again with the same consumer map; a run that
      leaves the lock held before its next delivery is stuck for good and
      never rejoins. The trace it gives has the shape `ListenTrace` states. */
  function ListenSpec(crp: LankyCrypto, conf: RabbitConf, consumers: map<string, Consumer>,
                      incs: seq<Incarnation>): (r: (seq<ListenEvent>, ListenEnd))
    ensures ListenTrace(consumers.Keys, RejoinDelay(conf), r)
    decreases |incs|
  {
    if |incs| == 0 then ([], NoMoreIncarnations)
    else
      var inc := incs[0];
      if !inc.exchangeDeclared then ([], Fatal(ExchangeDeclare))
      else if !inc.queueDeclared then ([], Fatal(QueueDeclare))
      else
        var joined := Binding(consumers, inc);
        if !inc.consumeStarted then ([joined], Fatal(ConsumeStart))
        else
          var run := RunOf(crp, consumers, inc);
          if run.end.PanickedAt? then
            var rest := ListenSpec(crp, conf, consumers, incs[1..]);
            PanickedRunTrace(consumers.Keys, RejoinDelay(conf), joined, run, rest);
            ([joined, Consumed(run), Rejoined(RejoinDelay(conf))] + rest.0, rest.1)
          else if run.end.BlockedAt? then ([joined, Consumed(run)], Stuck)
          else ([joined, Consumed(run)], ChannelClosed)
  }

  /** The declaration that stops `Listen` for good on a run of the broker,
      if any: the exchange, then the queue, then the start of the consumer. */
  function FailedStage(inc: Incarnation): (s: Option<ListenStage>)
    ensures s.None? <==> inc.exchangeDeclared && inc.queueDeclared && inc.consumeStarted
  {
    if !inc.exchangeDeclared then Some(ExchangeDeclare)
    else if !inc.queueDeclared then Some(QueueDeclare)
    else if !inc.consumeStarted then Some(ConsumeStart)
    else None
  }

  /** The number of rejoins in a trace of `Listen`. */
  function RejoinCount(events: seq<ListenEvent>): nat
  {
    if |events| == 0 then 0
    else (if events[0].Rejoined? then 1 else 0) + RejoinCount(events[1..])
  }

  /** One run of `Listen`, unfolded: what the run of the broker at the head
      of `incs` gives, and where listening goes on. */
  lemma ListenSpecStep(crp: LankyCrypto, conf: RabbitConf, consumers: map<string, Consumer>,
                       incs: seq<Incarnation>)
    requires |incs| > 0
    ensures var r := ListenSpec(crp, conf, consumers, incs);
      var inc := incs[0];
      var run := RunOf(crp, consumers, inc);
      && (FailedStage(inc) == Some(ExchangeDeclare) || FailedStage(inc) == Some(QueueDeclare) ==>
            r == ([], Fatal(FailedStage(inc).value)))
      && (FailedStage(inc) == Some(ConsumeStart) ==> r == ([Binding(consumers, inc)], Fatal(ConsumeStart)))
      && (FailedStage(inc).None? && run.end.PanickedAt? ==>
            var rest := ListenSpec(crp, conf, consumers, incs[1..]);
            r == ([Binding(consumers, inc), Consumed(run), Rejoined(RejoinDelay(conf))] + rest.0, rest.1))
      && (FailedStage(inc).None? && !run.end.PanickedAt? ==>
            r == ([Binding(consumers, inc), Consumed(run)], if run.end.BlockedAt? then Stuck else ChannelClosed))
  {
  }

  /** Listening uses up the runs of the broker one per rejoin: after `n`
      rejoins it is on run `n`, and it stops for want of runs exactly when
      every run was used. */
  lemma {:induction false} ListenUsesRuns(crp: LankyCrypto, conf: RabbitConf, consumers: map<string, Consumer>,
                                          incs: seq<Incarnation>)
    ensures var r := ListenSpec(crp, conf, consumers, incs);
      && RejoinCount(r.0) <= |incs|
      && (r.1 == NoMoreIncarnations <==> RejoinCount(r.0) == |incs|)
    decreases |incs|
  {
    if |incs| > 0 {
      ListenSpecStep(crp, conf, consumers, incs);
      var run := RunOf(crp, consumers, incs[0]);
      if FailedStage(incs[0]).None? && run.end.PanickedAt? {
        var rest := ListenSpec(crp, conf, consumers, incs[1..]);
        ListenUsesRuns(crp, conf, consumers, incs[1..]);
        RejoinCountRun(Binding(consumers, incs[0]), run, RejoinDelay(conf), rest.0);
      } else {
        RejoinCountLast(Binding(consumers, incs[0]), if FailedStage(incs[0]).None? then [Consumed(run)] else []);
      }
    }
  }

  /** Listening is fatal exactly when the run it is on after its rejoins
      fails a declaration, and then at that declaration. */
  lemma {:induction false} ListenFatal(crp: LankyCrypto, conf: RabbitConf, consumers: map<string, Consumer>,
                                       incs: seq<Incarnation>)
    ensures var r := ListenSpec(crp, conf, consumers, incs);
      var n := RejoinCount(r.0);
      && (r.1.Fatal? <==> n < |incs| && FailedStage(incs[n]).Some?)
      && (r.1.Fatal? ==> FailedStage(incs[n]) == Some(r.1.stage))
    decreases |incs|
  {
    if |incs| > 0 {
      ListenSpecStep(crp, conf, consumers, incs);
      var run := RunOf(crp, consumers, incs[0]);
      if FailedStage(incs[0]).None? && run.end.PanickedAt? {
        var rest := ListenSpec(crp, conf, consumers, incs[1..]);
        ListenFatal(crp, conf, consumers, incs[1..]);
        RejoinCountRun(Binding(consumers, incs[0]), run, RejoinDelay(conf), rest.0);
        var m := RejoinCount(rest.0);
        if m < |incs| - 1 {
          assert incs[1..][m] == incs[m + 1];
        }
      } else {
        RejoinCountLast(Binding(consumers, incs[0]), if FailedStage(incs[0]).None? then [Consumed(run)] else []);
      }
    }
  }

  /** The events of a run that panicked hold one rejoin. */
  lemma RejoinCountRun(joined: ListenEvent, run: Run, delay: Duration, rest: seq<ListenEvent>)
    requires joined.Joined?
    ensures RejoinCount([joined, Consumed(run), Rejoined(delay)] + rest) == 1 + RejoinCount(rest)
  {
    var e2 := [Rejoined(delay)] + rest;
    var e1 := [Consumed(run)] + e2;
    var e0 := [joined] + e1;
    assert e2[1..] == rest && RejoinCount(e2) == 1 + RejoinCount(rest);
    assert e1[1..] == e2 && RejoinCount(e1) == RejoinCount(e2);
    assert e0[1..] == e1 && RejoinCount(e0) == RejoinCount(e1);
    assert e0 == [joined, Consumed(run), Rejoined(delay)] + rest;
  }

  /** The events of a run that did not rejoin hold no rejoin. */
  lemma RejoinCountLast(joined: ListenEvent, consumed: seq<ListenEvent>)
    requires joined.Joined? && |consumed| <= 1 && forall e :: e in consumed ==> e.Consumed?
    ensures RejoinCount([joined] + consumed) == 0
  {
    assert ([joined] + consumed)[1..] == consumed;
    if |consumed| == 1 {
      assert consumed[0] in consumed && consumed[1..] == [];
      assert RejoinCount(consumed) == 0;
    }
  }

  /** A first delivery for a topic nobody consumes, followed by any other,
      leaves the consumer stuck: listening ends there, with no rejoin and
      nothing handled after the skipped delivery. */
  lemma ListenStuckAfterUnknownTopic(crp: LankyCrypto, conf: RabbitConf, consumers: map<string, Consumer>,
                                     inc: Incarnation, later: seq<Incarnation>)
    requires inc.exchangeDeclared && inc.queueDeclared && inc.consumeStarted
    requires |inc.deliveries| >= 2 && inc.deliveries[0].routingKey !in consumers
    ensures var r := ListenSpec(crp, conf, consumers, [inc] + later);
      && r.1 == Stuck && |r.0| == 2 && r.0[1].Consumed?
      && r.0[1].run == Run([Handling(inc.deliveries[0].routingKey, inc.deliveries[0].messageId, NoConsumer)], BlockedAt(1))
  {
    var hs := Dispatched(crp, consumers, inc.deliveries);
    ConsumeAsWrittenStops(hs, 0, 0);
    assert hs[0..1] == [hs[0]];
  }

  // ---------------------------------------------------------------------------
  // The client
  // ---------------------------------------------------------------------------

  /** Why `NewLankyRMQ` stops the process. */
  datatype RmqError =
    | EmptyDsn
    | EmptySecret
    | SecretLength
    | EmptyExchangeName
    | EmptyExchangeQueue
    | EmptyExchangeType
    | DialFailed
    | ChannelFailed

  predicate Blank(s: string)
  {
    forall k :: 0 <= k < |s| ==> IsSpace(s[k])
  }

  /** The checks of `NewLankyRMQ`, in order, on the trimmed fields: the first
      that fails, if any. */
  function ValidateConfig(conf: RabbitConf): (r: Option<RmqError>)
    ensures r.None? <==>
      !Blank(conf.dsn) && ByteLen(TrimSpace(conf.secret)) == 24 && !Blank(conf.exchangeName)
      && !Blank(conf.exchangeQueue) && !Blank(conf.exchangeType)
    ensures r == Some(EmptyDsn) <==> Blank(conf.dsn)
    ensures r == Some(EmptySecret) <==> !Blank(conf.dsn) && Blank(conf.secret)
    ensures r == Some(SecretLength) <==>
      !Blank(conf.dsn) && !Blank(conf.secret) && ByteLen(TrimSpace(conf.secret)) != 24
    ensures r == Some(EmptyExchangeName) <==>
      !Blank(conf.dsn) && ByteLen(TrimSpace(conf.secret)) == 24 && Blank(conf.exchangeName)
    ensures r == Some(EmptyExchangeQueue) <==>
      !Blank(conf.dsn) && ByteLen(TrimSpace(conf.secret)) == 24 && !Blank(conf.exchangeName)
      && Blank(conf.exchangeQueue)
    ensures r == Some(EmptyExchangeType) <==>
      !Blank(conf.dsn) && ByteLen(TrimSpace(conf.secret)) == 24 && !Blank(conf.exchangeName)
      && !Blank(conf.exchangeQueue) && Blank(conf.exchangeType)
  {
    if ByteLen(TrimSpace(conf.dsn)) == 0 then Some(EmptyDsn)
    else if ByteLen(TrimSpace(conf.secret)) == 0 then Some(EmptySecret)
    else if ByteLen(TrimSpace(conf.secret)) != 24 then Some(SecretLength)
    else if ByteLen(TrimSpace(conf.exchangeName)) == 0 then Some(EmptyExchangeName)
    else if ByteLen(TrimSpace(conf.exchangeQueue)) == 0 then Some(EmptyExchangeQueue)
    else if ByteLen(TrimSpace(conf.exchangeType)) == 0 then Some(EmptyExchangeType)
    else None
  }

  /** The secret the source keys the cipher with: the configured one, spaces
      and all, although only its trimmed form was checked. */
  function CipherSecretAsWritten(conf: RabbitConf): string
  {
    conf.secret
  }

  /** The secret the cipher is keyed with in this model: the trimmed one,
      whose length the constructor checked. */
  function CipherSecret(conf: RabbitConf): (s: string)
    ensures ValidateConfig(conf).None? ==> ByteLen(s) == 24 && ValidKeyLength(ByteLen(s))
  {
    TrimSpace(conf.secret)
  }

  /** A secret with spaces around it passes every check, since only its
      trimmed form is checked, yet as written the cipher is keyed with all of
      it: more than 24 bytes, so no AES key at all unless the padding makes
      exactly 32, and then not the key that was checked. One leading space
      before 24 letters gives a 25-byte key, on which every `Encrypt` and
      `Decrypt` fails. */
  lemma PaddedSecretBreaksCipher(conf: RabbitConf)
    requires ValidateConfig(conf).None?
    requires TrimSpace(conf.secret) != conf.secret
    ensures ByteLen(CipherSecretAsWritten(conf)) > 24
    ensures ValidKeyLength(ByteLen(CipherSecretAsWritten(conf))) ==> ByteLen(CipherSecretAsWritten(conf)) == 32
    ensures Utf8Encode(CipherSecretAsWritten(conf)) != Utf8Encode(CipherSecret(conf))
  {
    TrimSpaceShortens(conf.secret);
    assert ByteLen(CipherSecret(conf)) == 24;
  }

  /** With the cipher keyed by the checked secret, every configuration the
      constructor accepts can encrypt, and decrypts what it encrypted. */
  lemma ValidatedSecretRoundTrip(conf: RabbitConf, aes: Aes, iv: Block, data: seq<byte>)
    requires ValidateConfig(conf).None?
    ensures var key := Utf8Encode(CipherSecret(conf));
      && Encryption(aes, key, iv, data).Ok?
      && Decryption(aes, key, iv, Encryption(aes, key, iv, data).value) == Ok(data)
  {
    DecryptionEncryption(aes, Utf8Encode(CipherSecret(conf)), iv, data);
  }

  lemma ConcatAssociates<T>(a: seq<T>, b: seq<T>, c: seq<T>)
    ensures a + (b + c) == (a + b) + c
  {
  }

  /** `lrmq`: the configuration and the cipher of one client. */
  class Rabbit {
    const config: RabbitConf
    const crp: LankyCrypto

    constructor (config: RabbitConf, crp: LankyCrypto)
      ensures this.config == config && this.crp == crp
    {
      this.config := config;
      this.crp := crp;
    }

    /** `Publish`: up to `retries` attempts, each under the lock; an attempt
        whose encryption or publish call fails sleeps and retries, the first
        that publishes ends the loop. `uid` is the call's `uuid.New()`. */
    method Publish(topic: string, message: seq<byte>, option: Option<PublisherOption>, uid: string,
                   broker: nat -> bool) returns (trace: seq<AttemptRecord>)
      ensures trace == PublishFrom(ResolvePolicy(option), Encryption(crp.aes, crp.Key(), crp.size, message),
                                   config.exchangeName, topic, uid, broker, 1)
    {
      var retries: Retries := 1;
      var delay := Second;
      var attempt: nat := 1;
      var mu := new Mutex();
      var success := false;
      if option.Some? {
        if option.value.retries > 0 {
          retries := option.value.retries;
        }
        if option.value.delayRetries > 0 {
          delay := option.value.delayRetries;
        }
      }
      var p := Policy(retries, delay);
      assert p == ResolvePolicy(option);
      ghost var body := Encryption(crp.aes, crp.Key(), crp.size, message);
      ghost var want := PublishFrom(p, body, config.exchangeName, topic, uid, broker, 1);
      trace := [];
      var ok := true;
      while ok
        invariant !mu.held
        invariant ok ==> 1 <= attempt <= retries && !success
        invariant ok ==> want == trace + PublishFrom(p, body, config.exchangeName, topic, uid, broker, attempt)
        invariant !ok ==> want == trace
        decreases if ok then retries - attempt + 1 else 0
      {
        ghost var rest := PublishFrom(p, body, config.exchangeName, topic, uid, broker, attempt);
        mu.Lock();
        var record := PublishAttempt(p, topic, message, uid, broker, attempt);
        if record.PublishAccepted? {
          success := true;
        } else {
          attempt := attempt + 1;
        }
        mu.Unlock();
        ghost var later := if success || attempt > retries then []
          else PublishFrom(p, body, config.exchangeName, topic, uid, broker, attempt);
        assert rest == [record] + later;
        ConcatAssociates(trace, [record], later);
        trace := trace + [record];
        ok := attempt <= retries && !success;
      }
    }

    /** One pass of the `Publish` loop body, under the lock: encrypt the
        message, then make the publish call; a failure of either sleeps the
        policy's delay. */
    method PublishAttempt(p: Policy, topic: string, message: seq<byte>, uid: string,
                          broker: nat -> bool, attempt: nat) returns (record: AttemptRecord)
      ensures record == AttemptOf(p, Encryption(crp.aes, crp.Key(), crp.size, message),
                                  config.exchangeName, topic, uid, broker, attempt)
    {
      var encrypted := crp.EncryptToBytes(message);
      if encrypted.Err? {
        return EncryptionFailed(attempt, p.delay);
      }
      var call := Call(config.exchangeName, topic, Publishing("text/plain", uid, encrypted.value));
      if !broker(attempt) {
        return PublishRejected(attempt, call, p.delay);
      }
      return PublishAccepted(attempt, call);
    }

    /** The body of `consumerFn` for one delivery, with the lock held on
        entry. */
    method DispatchOne(consumers: map<string, Consumer>, d: Delivery) returns (h: Handling)
      ensures h == Dispatch(crp, consumers, d)
    {
      var topic := d.routingKey;
      var messageId := d.messageId;
      if topic !in consumers {
        return Handling(topic, messageId, NoConsumer);
      }
      var decrypted := crp.DecryptFromBytes(d.body);
      if decrypted.Err? {
        return Handling(topic, messageId, DecryptFailed);
      }
      var msg := d.(body := decrypted.value);
      var outcome := consumers[topic](msg);
      return Handling(topic, messageId, Handed(msg, outcome));
    }

    /** `consumerFn` as written: the lock is released only after a handled
        delivery; the loop is stuck in `mu.Lock()` once it is left held. */
    method ConsumeAsWritten(consumers: map<string, Consumer>, deliveries: seq<Delivery>) returns (r: Run)
      ensures r == ConsumeRunAsWritten(Dispatched(crp, consumers, deliveries), 0, false)
    {
      ghost var hs := Dispatched(crp, consumers, deliveries);
      var mu := new Mutex();
      var handled := [];
      var i := 0;
      while i < |deliveries|
        invariant 0 <= i <= |deliveries|
        invariant var rest := ConsumeRunAsWritten(hs, i, mu.held);
          ConsumeRunAsWritten(hs, 0, false) == Run(handled + rest.handled, rest.end)
        decreases |deliveries| - i
      {
        if mu.held {
          return Run(handled, BlockedAt(i));
        }
        mu.Lock();
        var h := DispatchOne(consumers, deliveries[i]);
        assert h == hs[i];
        ConcatAssociates(handled, [h], ConsumeRunAsWritten(hs, i + 1, !Released(h)).handled);
        handled := handled + [h];
        if Panicked(h) {
          return Run(handled, PanickedAt(i));
        }
        if Released(h) {
          mu.Unlock();
        }
        i := i + 1;
      }
      return Run(handled, Drained);
    }

    /** `consumerFn` with the lock released on every path of the loop body. */
    method Consume(consumers: map<string, Consumer>, deliveries: seq<Delivery>) returns (r: Run)
      ensures r == ConsumeRun(Dispatched(crp, consumers, deliveries), 0)
    {
      ghost var hs := Dispatched(crp, consumers, deliveries);
      var mu := new Mutex();
      var handled := [];
      var i := 0;
      while i < |deliveries|
        invariant 0 <= i <= |deliveries|
        invariant !mu.held
        invariant var rest := ConsumeRun(hs, i);
          ConsumeRun(hs, 0) == Run(handled + rest.handled, rest.end)
        decreases |deliveries| - i
      {
        mu.Lock();
        var h := DispatchOne(consumers, deliveries[i]);
        assert h == hs[i];
        ConsumeRunStep(hs, i);
        ConcatAssociates(handled, [h], ConsumeRun(hs, i + 1).handled);
        handled := handled + [h];
        if Panicked(h) {
          return Run(handled, PanickedAt(i));
        }
        mu.Unlock();
        i := i + 1;
      }
      return Run(handled, Drained);
    }

    /** `Listen`: declare the exchange and the queue, bind every topic of the
        consumer map (in no particular order), start the consumer loop as
        written; after a handler panic, wait the rejoin delay and listen
        again with the same map, on the next run of the broker. */
    method Listen(consumers: map<string, Consumer>, incs: seq<Incarnation>)
      returns (trace: seq<ListenEvent>, end: ListenEnd)
      ensures (trace, end) == ListenSpec(crp, config, consumers, incs)
      decreases |incs|
    {
      if |incs| == 0 {
        return [], NoMoreIncarnations;
      }
      var inc := incs[0];
      if !inc.exchangeDeclared {
        return [], Fatal(ExchangeDeclare);
      }
      if !inc.queueDeclared {
        return [], Fatal(QueueDeclare);
      }
      var remaining := consumers.Keys;
      var bound: set<string> := {};
      var unbound: set<string> := {};
      while remaining != {}
        invariant remaining <= consumers.Keys
        invariant forall t :: t in bound <==> t in consumers && t !in remaining && inc.bindAccepted(t)
        invariant forall t :: t in unbound <==> t in consumers && t !in remaining && !inc.bindAccepted(t)
        decreases remaining
      {
        var topic :| topic in remaining;
        if inc.bindAccepted(topic) {
          bound := bound + {topic};
        } else {
          unbound := unbound + {topic};
        }
        remaining := remaining - {topic};
      }
      assert bound == set t | t in consumers && inc.bindAccepted(t);
      assert unbound == set t | t in consumers && !inc.bindAccepted(t);
      var joined := Joined(bound, unbound);
      if !inc.consumeStarted {
        return [joined], Fatal(ConsumeStart);
      }
      var run := ConsumeAsWritten(consumers, inc.deliveries);
      if run.end.BlockedAt? {
        return [joined, Consumed(run)], Stuck;
      }
      if !run.end.PanickedAt? {
        return [joined, Consumed(run)], ChannelClosed;
      }
      var rest, restEnd := Listen(consumers, incs[1..]);
      return [joined, Consumed(run), Rejoined(RejoinDelay(config))] + rest, restEnd;
    }
  }

  /** `NewLankyRMQ`: the checks in order, then dialing and opening a channel
      (`dialed`, `channelOpened`), then the cipher of the configured secret,
      untrimmed, with the IV `randomBlock`. A fatal log is the error result.
      The cipher has a valid AES key when the secret has no surrounding
      spaces, and none when it has some and does not reach 32 bytes. */
  method NewLankyRMQ(conf: RabbitConf, dialed: bool, channelOpened: bool, randomBlock: Block, aes: Aes)
    returns (r: Result<Rabbit, RmqError>)
    ensures r.Err? <==> ValidateConfig(conf).Some? || !dialed || !channelOpened
    ensures ValidateConfig(conf).Some? ==> r == Err(ValidateConfig(conf).value)
    ensures ValidateConfig(conf).None? && !dialed ==> r == Err(DialFailed)
    ensures ValidateConfig(conf).None? && dialed && !channelOpened ==> r == Err(ChannelFailed)
    ensures r.Ok? ==>
      fresh(r.value) && fresh(r.value.crp) && r.value.config == conf
      && r.value.crp.secret == CipherSecretAsWritten(conf) && r.value.crp.size == randomBlock && r.value.crp.aes == aes
      && (TrimSpace(conf.secret) == conf.secret ==> ValidKeyLength(|r.value.crp.Key()|))
      && (TrimSpace(conf.secret) != conf.secret ==> |r.value.crp.Key()| > 24)
  {
    var invalid := ValidateConfig(conf);
    if invalid.Some? {
      return Err(invalid.value);
    }
    if !dialed {
      return Err(DialFailed);
    }
    if !channelOpened {
      return Err(ChannelFailed);
    }
    if TrimSpace(conf.secret) != conf.secret {
      PaddedSecretBreaksCipher(conf);
    } else {
      assert ByteLen(CipherSecret(conf)) == 24;
    }
    var crp := new LankyCrypto(CipherSecretAsWritten(conf), randomBlock, aes);
    var client := new Rabbit(conf, crp);
    return Ok(client);
  }
}
