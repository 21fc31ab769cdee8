/** The RabbitMQ broker wrapper: publishing an event to the topic exchange
    `saga_events`, the per-subscription retry / dead-letter decision taken
    when a delivered message fails, and inspection of the dead-letter queue.
    The exchange is modelled by the sequence of messages published to it;
    topic matching of routing keys to queues is not modelled. */
module MessageBroker {
  import opened Common
  import opened Events

  const MainExchange: string := "saga_events"
  const DeadLetterExchange: string := "saga_events_dlx"
  const DeadLetterQueueName: string := "dead_letter_queue"
  const RetryHeader: string := "x-retry-count"
  const JsonContentType: string := "application/json"
  const NotConnected: string := "Message broker not connected"
  const MaxRetriesExceeded: string := "max retries exceeded"
  const MalformedJson: string := "malformed JSON body"
  /** `max_retries` when a subscription does not give one. */
  const DefaultMaxRetries: int := 3
  /** The cap on the delay before a retry, in seconds. */
  const MaxRetryDelay: int := 60

  // ---------------------------------------------------------------------
  // Messages

  datatype HeaderValue = HInt(number: int) | HText(text: string)

  /** AMQP headers; an absent header table is the empty map, which Python
      treats the same way (`if message.headers`). */
  type Headers = map<string, HeaderValue>

  /** A message body: the JSON of an event, or bytes that are not JSON. */
  datatype Body = EventBody(raw: RawEvent) | MalformedBody

  datatype Message = Message(
    routingKey: string,
    body: Body,
    contentType: Option<string>,
    headers: Headers,
    persistent: bool)

  /** `publish_event`'s message for `e`: JSON body, persistent delivery, and
      exactly the four headers event_type, event_id, correlation_id and
      version. The routing key is the one given, else the type's value. */
  function EventMessage(e: Event, routingKey: Option<string>): (m: Message)
    ensures m.routingKey == (if routingKey.Some? && routingKey.value != "" then routingKey.value else Value(e.eventType))
    ensures m.body == EventBody(Serialize(e)) && m.contentType == Some(JsonContentType) && m.persistent
    ensures m.headers.Keys == {"event_type", "event_id", "correlation_id", "version"}
    ensures m.headers["event_type"] == HText(Value(e.eventType))
    ensures m.headers["event_id"] == HText(e.eventId)
    ensures m.headers["correlation_id"] == HText(e.correlationId)
    ensures m.headers["version"] == HInt(e.version)
    ensures RetryHeader !in m.headers
  {
    Message(OrElse(routingKey, Value(e.eventType)), EventBody(Serialize(e)), Some(JsonContentType),
            map["event_type" := HText(Value(e.eventType)), "event_id" := HText(e.eventId),
                "correlation_id" := HText(e.correlationId), "version" := HInt(e.version)],
            true)
  }

  // ---------------------------------------------------------------------
  // The retry counter

  function DigitValue(c: char): (d: nat)
    requires '0' <= c <= '9'
    ensures d <= 9
  {
    c as int - '0' as int
  }

  function ParseDigits(s: string): (r: Option<nat>)
  {
    if s == [] then None
    else if !('0' <= s[|s| - 1] <= '9') then None
    else if |s| == 1 then Some(DigitValue(s[0]))
    else match ParseDigits(s[..|s| - 1])
         case None => None
         case Some(n) => Some(10 * n + DigitValue(s[|s| - 1]))
  }

  /** `int(text)` for an optional sign followed by decimal digits. */
  function ParseInt(s: string): Option<int> {
    if |s| > 0 && s[0] == '-' then
      match ParseDigits(s[1..]) case None => None case Some(n) => Some(-(n as int))
    else if |s| > 0 && s[0] == '+' then
      match ParseDigits(s[1..]) case None => None case Some(n) => Some(n)
    else match ParseDigits(s) case None => None case Some(n) => Some(n)
  }

  /** The retry count a message carries: 0 without the header, the header's
      integer otherwise; a header `int()` cannot read raises. */
  function ReadRetryCount(h: Headers): (r: Result<int, string>)
    ensures RetryHeader !in h ==> r == Success(0)
    ensures RetryHeader in h && h[RetryHeader].HInt? ==> r == Success(h[RetryHeader].number)
  {
    if RetryHeader !in h then Success(0)
    else match h[RetryHeader]
         case HInt(n) => Success(n)
         case HText(s) =>
           match ParseInt(s)
           case Some(n) => Success(n)
           case None => Failure("invalid literal for int() with base 10: '" + s + "'")
  }

  function Pow2(n: nat): (r: nat)
    ensures r >= 1
  {
    if n == 0 then 1 else 2 * Pow2(n - 1)
  }

  lemma {:induction false} Pow2Monotone(a: nat, b: nat)
    requires a <= b
    ensures Pow2(a) <= Pow2(b)
  {
    if a < b {
      Pow2Monotone(a, b - 1);
    }
  }

  lemma {:induction false} Pow2AtLeastSixtyFour(n: nat)
    requires n >= 6
    ensures Pow2(n) >= 64
  {
    if n > 6 {
      Pow2AtLeastSixtyFour(n - 1);
    }
  }

  /** `min(2 ** k, 60)` seconds; `2 ** k` is a fraction for negative `k`. */
  function RetryDelay(k: int): real {
    if k >= 0 then (if Pow2(k) <= MaxRetryDelay then Pow2(k) as real else MaxRetryDelay as real)
    else 1.0 / (Pow2(-k) as real)
  }

  /** Every delay is positive and at most 60 seconds. */
  lemma RetryDelayBounds(k: int)
    ensures 0.0 < RetryDelay(k) <= MaxRetryDelay as real
  {
    if k < 0 {
      var p := Pow2(-k) as real;
      assert 1.0 / p <= 1.0;
    }
  }

  /** From the sixth retry on, the delay is the cap. */
  lemma RetryDelayCapped(k: int)
    requires k >= 6
    ensures RetryDelay(k) == MaxRetryDelay as real
  {
    Pow2AtLeastSixtyFour(k);
  }

  /** A later retry never waits less than an earlier one. */
  lemma RetryDelayMonotone(j: int, k: int)
    requires j <= k
    ensures RetryDelay(j) <= RetryDelay(k)
  {
    if 0 <= j {
      Pow2Monotone(j, k);
    } else if k < 0 {
      Pow2Monotone(-k, -j);
      var a, b := Pow2(-k) as real, Pow2(-j) as real;
      assert a <= b;
      assert 1.0 / b <= 1.0 / a by {
        assert (1.0 / b) * b == 1.0 && (1.0 / a) * a == 1.0;
      }
    } else {
      var b := Pow2(-j) as real;
      assert 1.0 / b <= 1.0;
      assert Pow2(k) >= 1;
      assert 1.0 <= RetryDelay(k) by {
        assert 1.0 <= Pow2(k) as real;
      }
    }
  }

  // ---------------------------------------------------------------------
  // Subscriptions and the delivery decision

  /** What a queue is bound to: one event type's value, or a topic pattern. */
  datatype Binding = ForEvent(eventType: EventType) | ForPattern(pattern: string)

  datatype Subscription = Subscription(queueName: string, binding: Binding, maxRetries: int)

  function BindingKey(b: Binding): string {
    match b
    case ForEvent(t) => Value(t)
    case ForPattern(p) => p
  }

  /** The routing key the queue's dead-letter policy gives rejected messages. */
  function DeadLetterRoutingKey(s: Subscription): string {
    "dlq." + BindingKey(s.binding)
  }

  /** The arguments the subscription's queue is declared with. */
  function QueueArguments(s: Subscription): (args: map<string, string>)
    ensures args.Keys == {"x-dead-letter-exchange", "x-dead-letter-routing-key", "x-queue-type"}
    ensures args["x-dead-letter-exchange"] == DeadLetterExchange
    ensures args["x-dead-letter-routing-key"] == DeadLetterRoutingKey(s)
    ensures args["x-queue-type"] == "quorum"
  {
    map["x-dead-letter-exchange" := DeadLetterExchange,
        "x-dead-letter-routing-key" := DeadLetterRoutingKey(s),
        "x-queue-type" := "quorum"]
  }

  /** The routing key a failed message is republished with: the event type's
      value for a type subscription; for a pattern subscription the message's
      own key, or the pattern when that is empty. */
  function RepublishKey(s: Subscription, m: Message): string {
    match s.binding
    case ForEvent(t) => Value(t)
    case ForPattern(p) => if m.routingKey != "" then m.routingKey else p
  }

  /** The copy of `m` republished for attempt `count`. */
  function RetryMessage(m: Message, count: int, routingKey: string): Message {
    Message(routingKey, m.body, m.contentType, m.headers[RetryHeader := HInt(count)], true)
  }

  datatype Delivery =
    | Acked
    | Retried(count: int, delay: real, retry: Message)
    | DeadLettered(reason: string)

  /** The `try` block of `process_message`: decode the body, build the event,
      (for a type subscription) read the retry counter, then run the
      handler. Any of these may raise. */
  function TryHandle(s: Subscription, m: Message, handler: Event -> Outcome): Outcome {
    match m.body
    case MalformedBody => Fail(MalformedJson)
    case EventBody(raw) =>
      match Deserialize(raw)
      case Failure(err) => Fail(DecodeErrorText(err))
      case Success(e) =>
        if s.binding.ForEvent? && ReadRetryCount(m.headers).Failure? then Fail(ReadRetryCount(m.headers).error)
        else handler(e)
  }

  /** The `except` block: count this failure and either republish after the
      delay or let the exception escape, which rejects the message without
      requeue so that the queue dead-letters it. A counter that cannot be
      read, or a republish that raises, also ends in the dead-letter
      exchange. */
  function OnFailure(s: Subscription, m: Message, republish: Outcome): Delivery {
    match ReadRetryCount(m.headers)
    case Failure(err) => DeadLettered(err)
    case Success(c) =>
      if c + 1 <= s.maxRetries then
        if republish.Pass? then Retried(c + 1, RetryDelay(c + 1), RetryMessage(m, c + 1, RepublishKey(s, m)))
        else DeadLettered(republish.error)
      else DeadLettered(MaxRetriesExceeded)
  }

  /** `process_message` of a subscription: `republish` is the outcome of the
      exchange publish a retry would make. */
  function Deliver(s: Subscription, m: Message, handler: Event -> Outcome, republish: Outcome): Delivery {
    if TryHandle(s, m, handler).Pass? then Acked else OnFailure(s, m, republish)
  }

  /** The message the queue hands to the dead-letter exchange. */
  function DeadLetterMessage(s: Subscription, m: Message): Message {
    m.(routingKey := DeadLetterRoutingKey(s))
  }

  /** A failed delivery with a readable counter `c` is republished exactly
      when `c + 1 <= max_retries` and the republish succeeds; the retry
      carries the body, the content type and the headers of the original,
      with only `x-retry-count` changed to `c + 1`. */
  lemma RetryDecision(s: Subscription, m: Message, handler: Event -> Outcome, republish: Outcome, c: int)
    requires TryHandle(s, m, handler).Fail?
    requires ReadRetryCount(m.headers) == Success(c)
    ensures Deliver(s, m, handler, republish).Retried? <==> c + 1 <= s.maxRetries && republish.Pass?
    ensures Deliver(s, m, handler, republish).DeadLettered? <==> !(c + 1 <= s.maxRetries && republish.Pass?)
    ensures Deliver(s, m, handler, republish).Retried? ==>
      var d := Deliver(s, m, handler, republish);
      d.count == c + 1 && d.delay == RetryDelay(c + 1) &&
      d.retry.body == m.body && d.retry.contentType == m.contentType && d.retry.persistent &&
      d.retry.headers.Keys == m.headers.Keys + {RetryHeader} &&
      d.retry.headers[RetryHeader] == HInt(c + 1) &&
      (forall k :: k in m.headers && k != RetryHeader ==> d.retry.headers[k] == m.headers[k]) &&
      ReadRetryCount(d.retry.headers) == Success(c + 1)
  {
  }

  /** A body that is not JSON spends the same retry budget as a failing
      handler: there is no fast path to the dead-letter exchange. */
  lemma MalformedBodyIsRetried(s: Subscription, m: Message, handler: Event -> Outcome, republish: Outcome)
    requires m.body == MalformedBody
    requires RetryHeader !in m.headers && s.maxRetries >= 1 && republish.Pass?
    ensures Deliver(s, m, handler, republish) == Retried(1, 2.0, RetryMessage(m, 1, RepublishKey(s, m)))
  {
  }

  /** A well-formed event whose handler returns is acknowledged, whatever
      retry count it carries, as long as a type subscription can read it. */
  lemma HandledIsAcked(s: Subscription, m: Message, handler: Event -> Outcome, republish: Outcome, e: Event)
    requires m.body.EventBody? && Deserialize(m.body.raw) == Success(e)
    requires handler(e).Pass?
    requires s.binding.ForPattern? || ReadRetryCount(m.headers).Success?
    ensures Deliver(s, m, handler, republish) == Acked
  {
  }

  /** An unreadable counter: a type subscription dead-letters the message
      without running the handler, while a pattern subscription, which reads
      the counter only after a failure, still acknowledges it when the
      handler succeeds. */
  lemma UnreadableCounter(t: EventType, p: string, q: string, n: int, m: Message, handler: Event -> Outcome, republish: Outcome, e: Event)
    requires m.body.EventBody? && Deserialize(m.body.raw) == Success(e)
    requires handler(e).Pass?
    requires ReadRetryCount(m.headers).Failure?
    ensures Deliver(Subscription(q, ForEvent(t), n), m, handler, republish).DeadLettered?
    ensures Deliver(Subscription(q, ForPattern(p), n), m, handler, republish) == Acked
  {
  }

  /** Republishing routes a type subscription's retry by the event type and a
      pattern subscription's retry by the message's own key. */
  lemma RepublishRouting(t: EventType, p: string, q: string, n: int, m: Message)
    ensures RepublishKey(Subscription(q, ForEvent(t), n), m) == Value(t)
    ensures m.routingKey != "" ==> RepublishKey(Subscription(q, ForPattern(p), n), m) == m.routingKey
    ensures m.routingKey == "" ==> RepublishKey(Subscription(q, ForPattern(p), n), m) == p
  {
  }

  /** The deliveries of a message whose every retry is consumed again by the
      same subscription, with each republish succeeding: one entry per run
      of `process_message`, at most `fuel` of them. */
  function Redeliveries(s: Subscription, m: Message, handler: Event -> Outcome, fuel: nat): seq<Delivery>
    decreases fuel
  {
    if fuel == 0 then []
    else
      var d := Deliver(s, m, handler, Pass);
      if d.Retried? then [d] + Redeliveries(s, d.retry, handler, fuel - 1) else [d]
  }

  /** One delivery of a message whose handler always fails. */
  lemma FailingDelivery(s: Subscription, m: Message, handler: Event -> Outcome, c: int)
    requires forall e :: handler(e).Fail?
    requires ReadRetryCount(m.headers) == Success(c)
    ensures Deliver(s, m, handler, Pass) ==
      if c + 1 <= s.maxRetries then Retried(c + 1, RetryDelay(c + 1), RetryMessage(m, c + 1, RepublishKey(s, m)))
      else DeadLettered(MaxRetriesExceeded)
    ensures ReadRetryCount(RetryMessage(m, c + 1, RepublishKey(s, m)).headers) == Success(c + 1)
  {
    assert TryHandle(s, m, handler).Fail? by {
      match m.body {
        case MalformedBody =>
        case EventBody(raw) =>
          if Deserialize(raw).Success? {
            assert handler(Deserialize(raw).value).Fail?;
          }
      }
    }
  }

  /** A message whose handler always fails and whose counter starts at `c`
      is delivered `max_retries - c + 1` times: retries numbered `c + 1` up
      to `max_retries`, each after its delay, then one dead-lettering. */
  lemma {:induction false} AlwaysFailingRun(s: Subscription, m: Message, handler: Event -> Outcome, fuel: nat, c: int)
    requires forall e :: handler(e).Fail?
    requires ReadRetryCount(m.headers) == Success(c)
    requires c <= s.maxRetries && fuel > s.maxRetries - c
    ensures |Redeliveries(s, m, handler, fuel)| == s.maxRetries - c + 1
    ensures Redeliveries(s, m, handler, fuel)[s.maxRetries - c] == DeadLettered(MaxRetriesExceeded)
    ensures forall k :: 0 <= k < s.maxRetries - c ==>
      Redeliveries(s, m, handler, fuel)[k].Retried? &&
      Redeliveries(s, m, handler, fuel)[k].count == c + k + 1 &&
      Redeliveries(s, m, handler, fuel)[k].delay == RetryDelay(c + k + 1)
    decreases fuel
  {
    FailingDelivery(s, m, handler, c);
    var d := Deliver(s, m, handler, Pass);
    if c < s.maxRetries {
      var next := d.retry;
      AlwaysFailingRun(s, next, handler, fuel - 1, c + 1);
      var rest := Redeliveries(s, next, handler, fuel - 1);
      var run := Redeliveries(s, m, handler, fuel);
      assert run == [d] + rest;
      forall k | 0 <= k < s.maxRetries - c
        ensures run[k].Retried? && run[k].count == c + k + 1 && run[k].delay == RetryDelay(c + k + 1)
      {
        if k > 0 {
          assert run[k] == rest[k - 1];
        }
      }
    }
  }

  /** With the default of three retries, an event whose handler always
      fails runs four times, waiting 2, 4 and 8 seconds between runs, and is
      then dead-lettered once. */
  lemma DefaultFailingRun(q: string, b: Binding, m: Message, handler: Event -> Outcome)
    requires forall e :: handler(e).Fail?
    requires RetryHeader !in m.headers
    ensures var run := Redeliveries(Subscription(q, b, DefaultMaxRetries), m, handler, 10);
      |run| == 4 &&
      run[0].Retried? && run[0].count == 1 && run[0].delay == 2.0 &&
      run[1].Retried? && run[1].count == 2 && run[1].delay == 4.0 &&
      run[2].Retried? && run[2].count == 3 && run[2].delay == 8.0 &&
      run[3] == DeadLettered(MaxRetriesExceeded)
  {
    AlwaysFailingRun(Subscription(q, b, DefaultMaxRetries), m, handler, 10, 0);
  }

  // ---------------------------------------------------------------------
  // The dead-letter queue

  datatype DeadLetterInfo = DeadLetterInfo(event: RawEvent, headers: Headers, routingKey: string)

  function InfoOf(m: Message): DeadLetterInfo
    requires m.body.EventBody?
  {
    DeadLetterInfo(m.body.raw, m.headers, m.routingKey)
  }

  /** The result of one `get_dead_letter_messages` call and the queue it
      leaves behind. */
  datatype Fetch = Fetch(result: Result<seq<DeadLetterInfo>, string>, rest: seq<Message>)

  function PrependInfos(infos: seq<DeadLetterInfo>, f: Fetch): Fetch {
    if f.result.Success? then Fetch(Success(infos + f.result.value), f.rest) else f
  }

  /** Fetch up to `limit` messages from the front of the queue, acknowledging
      (removing) each; stop early when the queue is empty. A body that is not
      JSON raises, leaving that message and the rest in the queue. */
  function FetchDeadLetters(q: seq<Message>, limit: int): Fetch
    decreases |q|
  {
    if limit <= 0 || q == [] then Fetch(Success([]), q)
    else if q[0].body.MalformedBody? then Fetch(Failure(MalformedJson), q)
    else PrependInfos([InfoOf(q[0])], FetchDeadLetters(q[1..], limit - 1))
  }

  /** A fetch returns at most `limit` messages, the oldest ones, in queue
      order; it stops short of `limit` only when the queue runs out; what it
      leaves is the remainder of the queue. When it raises, the queue still
      starts with the message that is not JSON. */
  lemma {:induction false} FetchDeadLettersMeaning(q: seq<Message>, limit: int)
    ensures var f := FetchDeadLetters(q, limit);
      |f.rest| <= |q| && f.rest == q[|q| - |f.rest|..] &&
      (f.result.Success? ==>
        |f.result.value| <= (if limit < 0 then 0 else limit) && |f.result.value| == |q| - |f.rest| &&
        (forall i :: 0 <= i < |f.result.value| ==> q[i].body.EventBody? && f.result.value[i] == InfoOf(q[i])) &&
        (|f.result.value| < limit ==> f.rest == [])) &&
      (f.result.Failure? ==> f.rest != [] && f.rest[0].body.MalformedBody?)
    decreases |q|
  {
    if limit <= 0 || q == [] || q[0].body.MalformedBody? {
    } else {
      FetchDeadLettersMeaning(q[1..], limit - 1);
      var g := FetchDeadLetters(q[1..], limit - 1);
      var f := FetchDeadLetters(q, limit);
      assert q[1..][|q[1..]| - |g.rest|..] == q[|q| - |g.rest|..];
      if g.result.Success? {
        assert f.result.value == [InfoOf(q[0])] + g.result.value;
        forall i | 0 <= i < |f.result.value|
          ensures q[i].body.EventBody? && f.result.value[i] == InfoOf(q[i])
        {
          if i > 0 {
            assert f.result.value[i] == g.result.value[i - 1];
            assert q[i] == q[1..][i - 1];
          }
        }
      }
    }
  }

  lemma PrependInfosTwice(a: seq<DeadLetterInfo>, x: DeadLetterInfo, f: Fetch)
    ensures PrependInfos(a, PrependInfos([x], f)) == PrependInfos(a + [x], f)
  {
    if f.result.Success? {
      assert a + ([x] + f.result.value) == (a + [x]) + f.result.value;
    }
  }

  // ---------------------------------------------------------------------
  // The broker object

  class Broker {
    /** The AMQP connection is open. */
    var connectionOpen: bool
    /** `connect` has set the channel and both exchanges; `disconnect` does
        not clear them. */
    var declared: bool
    var subscriptions: seq<Subscription>
    /** Messages published to `saga_events`, in order. */
    var published: seq<Message>
    /** Messages rejected to `saga_events_dlx`, in order. */
    var deadLettered: seq<Message>
    /** The contents of `dead_letter_queue`. No queue binding feeds it from
        the dead-letter exchange. */
    var deadLetterQueue: seq<Message>

    ghost predicate Valid()
      reads this
    {
      |subscriptions| > 0 ==> declared
    }

    constructor ()
      ensures Valid()
      ensures !connectionOpen && !declared
      ensures subscriptions == [] && published == [] && deadLettered == [] && deadLetterQueue == []
    {
      connectionOpen := false;
      declared := false;
      subscriptions := [];
      published := [];
      deadLettered := [];
      deadLetterQueue := [];
    }

    /** `connect`: open the connection, declare both exchanges and the
        dead-letter queue. */
    method Connect()
      requires Valid()
      modifies this`connectionOpen, this`declared
      ensures Valid()
      ensures connectionOpen && declared
    {
      connectionOpen := true;
      declared := true;
    }

    /** `disconnect`: close an open connection; the exchange stays set. */
    method Disconnect()
      requires Valid()
      modifies this`connectionOpen
      ensures Valid()
      ensures !connectionOpen
    {
      if connectionOpen {
        connectionOpen := false;
      }
    }

    /** `publish_event`: refuse when `connect` never ran, otherwise hand the
        event's message to the exchange, whose own outcome is `transport`. */
    method PublishEvent(e: Event, routingKey: Option<string>, transport: Outcome) returns (r: Outcome)
      modifies this`published
      ensures !declared ==> r == Fail(NotConnected)
      ensures declared ==> r == transport
      ensures published == if r.Pass? then old(published) + [EventMessage(e, routingKey)] else old(published)
    {
      if !declared {
        return Fail(NotConnected);
      }
      r := transport;
      if r.Pass? {
        published := published + [EventMessage(e, routingKey)];
      }
    }

    method Subscribe(s: Subscription) returns (r: Outcome)
      requires Valid()
      modifies this`subscriptions
      ensures Valid()
      ensures !declared ==> r == Fail(NotConnected) && subscriptions == old(subscriptions)
      ensures declared ==> r == Pass && subscriptions == old(subscriptions) + [s]
    {
      if !declared {
        return Fail(NotConnected);
      }
      subscriptions := subscriptions + [s];
      r := Pass;
    }

    /** `subscribe_to_event`: a queue bound to one event type. */
    method SubscribeToEvent(t: EventType, queueName: string, maxRetries: int) returns (r: Outcome)
      requires Valid()
      modifies this`subscriptions
      ensures Valid()
      ensures !declared ==> r == Fail(NotConnected) && subscriptions == old(subscriptions)
      ensures declared ==> r == Pass && subscriptions == old(subscriptions) + [Subscription(queueName, ForEvent(t), maxRetries)]
    {
      r := Subscribe(Subscription(queueName, ForEvent(t), maxRetries));
    }

    /** `subscribe_to_pattern`: a queue bound to a topic pattern. */
    method SubscribeToPattern(pattern: string, queueName: string, maxRetries: int) returns (r: Outcome)
      requires Valid()
      modifies this`subscriptions
      ensures Valid()
      ensures !declared ==> r == Fail(NotConnected) && subscriptions == old(subscriptions)
      ensures declared ==> r == Pass && subscriptions == old(subscriptions) + [Subscription(queueName, ForPattern(pattern), maxRetries)]
    {
      r := Subscribe(Subscription(queueName, ForPattern(pattern), maxRetries));
    }

    /** One run of a subscription's `process_message` on message `m`. */
    method ProcessMessage(s: Subscription, m: Message, handler: Event -> Outcome, republish: Outcome) returns (d: Delivery)
      requires Valid() && s in subscriptions
      modifies this`published, this`deadLettered
      ensures Valid()
      ensures d == Deliver(s, m, handler, republish)
      ensures published == if d.Retried? then old(published) + [d.retry] else old(published)
      ensures deadLettered == if d.DeadLettered? then old(deadLettered) + [DeadLetterMessage(s, m)] else old(deadLettered)
    {
      d := Deliver(s, m, handler, republish);
      if d.Retried? {
        published := published + [d.retry];
      } else if d.DeadLettered? {
        deadLettered := deadLettered + [DeadLetterMessage(s, m)];
      }
    }

    /** `get_dead_letter_messages`: the bounded fetch loop. */
    method GetDeadLetterMessages(limit: int) returns (r: Result<seq<DeadLetterInfo>, string>)
      modifies this`deadLetterQueue
      ensures !declared ==> r == Failure(NotConnected) && deadLetterQueue == old(deadLetterQueue)
      ensures declared ==> r == FetchDeadLetters(old(deadLetterQueue), limit).result
      ensures declared ==> deadLetterQueue == FetchDeadLetters(old(deadLetterQueue), limit).rest
    {
      if !declared {
        return Failure(NotConnected);
      }
      var messages: seq<DeadLetterInfo> := [];
      var i := 0;
      if limit <= 0 {
        return Success([]);
      }
      assert PrependInfos(messages, FetchDeadLetters(deadLetterQueue, limit)) == FetchDeadLetters(deadLetterQueue, limit) by {
        var f := FetchDeadLetters(deadLetterQueue, limit);
        if f.result.Success? {
          assert [] + f.result.value == f.result.value;
        }
      }
      while i < limit
        invariant 0 <= i && i <= limit
        invariant PrependInfos(messages, FetchDeadLetters(deadLetterQueue, limit - i)) == FetchDeadLetters(old(deadLetterQueue), limit)
        decreases limit - i
      {
        if deadLetterQueue == [] {
          assert messages + [] == messages;
          break;
        }
        var m := deadLetterQueue[0];
        if m.body.MalformedBody? {
          return Failure(MalformedJson);
        }
        PrependInfosTwice(messages, InfoOf(m), FetchDeadLetters(deadLetterQueue[1..], limit - i - 1));
        messages := messages + [InfoOf(m)];
        deadLetterQueue := deadLetterQueue[1..];
        i := i + 1;
      }
      assert messages + [] == messages;
      r := Success(messages);
    }

    /** `replay_event`: publish the event afresh. */
    method ReplayEvent(e: Event, transport: Outcome) returns (r: Outcome)
      modifies this`published
      ensures !declared ==> r == Fail(NotConnected)
      ensures declared ==> r == transport
      ensures published == if r.Pass? then old(published) + [EventMessage(e, None)] else old(published)
    {
      r := PublishEvent(e, None, transport);
    }
  }

  /** A replayed event carries no retry count, so its next failure is
      counted as the first retry: the whole budget is available again. */
  lemma ReplayStartsAtZero(e: Event, s: Subscription, handler: Event -> Outcome, republish: Outcome)
    requires TryHandle(s, EventMessage(e, None), handler).Fail?
    requires s.maxRetries >= 1 && republish.Pass?
    ensures ReadRetryCount(EventMessage(e, None).headers) == Success(0)
    ensures Deliver(s, EventMessage(e, None), handler, republish).Retried?
    ensures Deliver(s, EventMessage(e, None), handler, republish).count == 1
  {
  }
}
