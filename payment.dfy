/** The payment service's saga handlers: charging an order once per
    idempotency key `payment_<order id>`, through a gateway whose outcome
    is an input, and refunding a completed transaction once. */
module PaymentService {
  import opened Common
  import opened Events
  import opened MessageBroker
  import opened Outbox

  datatype TransactionStatus = TxPending | TxProcessing | TxCompleted | TxFailed | TxRefunded

  /** `payment_gateway_response`. */
  datatype GatewayResponse = NoResponse | GatewaySuccess(gatewayTransactionId: Uuid) | GatewayFailure(error: Option<string>)

  datatype Transaction = Transaction(
    id: Uuid,
    orderId: Uuid,
    customerId: Uuid,
    correlationId: Uuid,
    idempotencyKey: string,
    amount: Cents,
    currency: string,
    status: TransactionStatus,
    paymentMethod: PaymentMethod,
    gatewayResponse: GatewayResponse,
    errorMessage: Option<string>,
    createdAt: Timestamp,
    processedAt: Option<Timestamp>)

  datatype RefundStatus = RefundPending | RefundCompleted

  datatype Refund = Refund(
    id: Uuid,
    transactionId: Uuid,
    orderId: Uuid,
    correlationId: Uuid,
    amount: Cents,
    reason: Option<string>,
    status: RefundStatus,
    gatewayRefundId: Uuid,
    createdAt: Timestamp,
    processedAt: Option<Timestamp>)

  const PaymentFailedCode: string := "PAYMENT_FAILED"
  const UnknownError: string := "Unknown error"
  const ProcessingFailed: string := "Payment processing failed"
  const CancellationReason: string := "Order cancellation"

  /** The idempotency key of an order's payment. */
  function PaymentKey(orderId: Uuid): string {
    "payment_" + orderId
  }

  /** Different orders have different keys. */
  lemma PaymentKeyInjective(a: Uuid, b: Uuid)
    requires PaymentKey(a) == PaymentKey(b)
    ensures a == b
  {
    assert PaymentKey(a)[8..] == a;
    assert PaymentKey(b)[8..] == b;
  }

  // ---------------------------------------------------------------------
  // The gateway

  const GatewayErrors: seq<string> :=
    ["Insufficient funds", "Card declined", "Payment gateway timeout", "Invalid payment method"]

  /** The gateway's answer: success, or failure with a message. */
  datatype GatewayResult = Approved | Declined(error: Option<string>)

  /** `process_payment`: `draw` is `random.random()` and `pick` chooses
      the message; a fifth of the draws fail. */
  function ProcessPayment(draw: real, pick: nat): (r: GatewayResult)
    ensures r.Declined? <==> draw < 0.2
    ensures r.Declined? ==> r.error.Some? && r.error.value in GatewayErrors
  {
    if draw < 0.2 then Declined(Some(GatewayErrors[pick % |GatewayErrors|])) else Approved
  }

  // ---------------------------------------------------------------------
  // The transactions table

  /** Ids and idempotency keys are unique, and each key is the one of the
      transaction's order (so order ids are unique too). */
  ghost predicate ValidTransactions(txs: seq<Transaction>) {
    (forall k :: 0 <= k < |txs| ==> txs[k].idempotencyKey == PaymentKey(txs[k].orderId)) &&
    (forall i, j :: 0 <= i < j < |txs| ==> txs[i].id != txs[j].id && txs[i].idempotencyKey != txs[j].idempotencyKey)
  }

  /** `WHERE idempotency_key = ...`. */
  function FindByKey(txs: seq<Transaction>, key: string): (r: Option<nat>)
    ensures r.Some? ==> r.value < |txs| && txs[r.value].idempotencyKey == key
    ensures r.None? <==> forall k :: 0 <= k < |txs| ==> txs[k].idempotencyKey != key
  {
    FindFirst(txs, (t: Transaction) => t.idempotencyKey == key)
  }

  /** `WHERE id = ...`. */
  function FindById(txs: seq<Transaction>, id: Uuid): (r: Option<nat>)
    ensures r.Some? ==> r.value < |txs| && txs[r.value].id == id
    ensures r.None? <==> forall k :: 0 <= k < |txs| ==> txs[k].id != id
  {
    FindFirst(txs, (t: Transaction) => t.id == id)
  }

  /** A key or id that occurs once is found at that place. */
  lemma FindByKeyAt(txs: seq<Transaction>, i: nat)
    requires i < |txs| && forall k :: 0 <= k < |txs| && k != i ==> txs[k].idempotencyKey != txs[i].idempotencyKey
    ensures FindByKey(txs, txs[i].idempotencyKey) == Some(i)
  {
  }

  lemma FindByIdAt(txs: seq<Transaction>, i: nat)
    requires i < |txs| && forall k :: 0 <= k < |txs| && k != i ==> txs[k].id != txs[i].id
    ensures FindById(txs, txs[i].id) == Some(i)
  {
  }

  /** `WHERE transaction_id = ... AND status = 'completed'` finds a row. */
  predicate HasCompletedRefund(refunds: seq<Refund>, transactionId: Uuid) {
    exists k :: 0 <= k < |refunds| && refunds[k].transactionId == transactionId && refunds[k].status == RefundCompleted
  }

  // ---------------------------------------------------------------------
  // The handlers on values

  datatype PaymentStep = PaymentStep(transactions: seq<Transaction>, events: seq<Event>)

  /** The new transaction of a request, committed as processing before the
      gateway is called. */
  function NewTransaction(e: Event, transactionId: Uuid, now: Timestamp): (tx: Transaction)
    requires e.payload.PaymentRequestedData?
    ensures tx.status == TxProcessing && tx.idempotencyKey == PaymentKey(e.payload.orderId)
    ensures tx.amount == e.payload.amount && tx.currency == e.payload.currency
  {
    Transaction(transactionId, e.payload.orderId, e.payload.customerId, e.correlationId,
                PaymentKey(e.payload.orderId), e.payload.amount, e.payload.currency, TxProcessing,
                e.payload.paymentMethod, NoResponse, None, now, None)
  }

  /** The event announcing a stored transaction again: processed when it
      completed, failed when it failed, none otherwise. */
  function Replay(tx: Transaction, e: Event, eventId: Uuid, now: Timestamp): (events: seq<Event>)
    requires e.payload.PaymentRequestedData?
    ensures |events| <= 1 && AllFollow(events, e)
    ensures tx.status == TxCompleted ==>
      events == [FollowUp(e, eventId, e.aggregateId, now,
                          PaymentProcessedData(e.payload.orderId, tx.id, tx.amount, tx.currency))]
    ensures tx.status == TxFailed ==>
      events == [FollowUp(e, eventId, e.aggregateId, now,
                          PaymentFailedData(e.payload.orderId, OrElse(tx.errorMessage, UnknownError),
                                            Some(PaymentFailedCode)))]
    ensures tx.status !in {TxCompleted, TxFailed} ==> events == []
  {
    match tx.status
    case TxCompleted =>
      [FollowUp(e, eventId, e.aggregateId, now,
                PaymentProcessedData(e.payload.orderId, tx.id, tx.amount, tx.currency))]
    case TxFailed =>
      [FollowUp(e, eventId, e.aggregateId, now,
                PaymentFailedData(e.payload.orderId, OrElse(tx.errorMessage, UnknownError), Some(PaymentFailedCode)))]
    case _ => []
  }

  /** Every event is a follow-up of `cause` on its aggregate. */
  predicate AllFollow(events: seq<Event>, cause: Event) {
    forall k :: 0 <= k < |events| ==>
      events[k].correlationId == cause.correlationId && events[k].causationId == Some(cause.eventId) &&
      events[k].aggregateId == cause.aggregateId
  }

  /** The gateway's answer applied to the processing transaction, and the
      event reporting it. */
  function Settle(tx: Transaction, e: Event, result: GatewayResult, gatewayTransactionId: Uuid,
                  eventId: Uuid, now: Timestamp): (r: (Transaction, Event))
    requires e.payload.PaymentRequestedData?
    ensures r.0.id == tx.id && r.0.idempotencyKey == tx.idempotencyKey && r.0.orderId == tx.orderId
    ensures r.0.processedAt == Some(now)
    ensures result.Approved? ==>
      r.0.status == TxCompleted &&
      r.1.payload == PaymentProcessedData(e.payload.orderId, tx.id, e.payload.amount, e.payload.currency)
    ensures result.Declined? ==>
      r.0.status == TxFailed && r.0.errorMessage == result.error &&
      r.1.payload == PaymentFailedData(e.payload.orderId, OrElse(result.error, ProcessingFailed), Some(PaymentFailedCode))
    ensures AllFollow([r.1], e) && r.1.eventId == eventId
  {
    match result
    case Approved =>
      (tx.(status := TxCompleted, processedAt := Some(now), gatewayResponse := GatewaySuccess(gatewayTransactionId)),
       FollowUp(e, eventId, e.aggregateId, now,
                PaymentProcessedData(e.payload.orderId, tx.id, e.payload.amount, e.payload.currency)))
    case Declined(error) =>
      (tx.(status := TxFailed, processedAt := Some(now), errorMessage := error, gatewayResponse := GatewayFailure(error)),
       FollowUp(e, eventId, e.aggregateId, now,
                PaymentFailedData(e.payload.orderId, OrElse(error, ProcessingFailed), Some(PaymentFailedCode))))
  }

  /** `handle_payment_requested`. */
  function OnPaymentRequested(txs: seq<Transaction>, e: Event, transactionId: Uuid, result: GatewayResult,
                              gatewayTransactionId: Uuid, eventId: Uuid, now: Timestamp): (s: PaymentStep)
    requires e.payload.PaymentRequestedData?
    ensures |s.events| <= 1 && AllFollow(s.events, e)
    ensures forall k :: 0 <= k < |s.events| ==>
      s.events[k].payload.PaymentProcessedData? || s.events[k].payload.PaymentFailedData?
    // A request whose key is known adds nothing and replays the stored outcome.
    ensures FindByKey(txs, PaymentKey(e.payload.orderId)).Some? ==>
      s.transactions == txs &&
      s.events == Replay(txs[FindByKey(txs, PaymentKey(e.payload.orderId)).value], e, eventId, now)
    // A new request adds exactly one transaction, settled by the gateway's answer.
    ensures FindByKey(txs, PaymentKey(e.payload.orderId)).None? ==>
      var settled := Settle(NewTransaction(e, transactionId, now), e, result, gatewayTransactionId, eventId, now);
      s.transactions == txs + [settled.0] && s.events == [settled.1]
  {
    match FindByKey(txs, PaymentKey(e.payload.orderId))
    case Some(i) => PaymentStep(txs, Replay(txs[i], e, eventId, now))
    case None =>
      var settled := Settle(NewTransaction(e, transactionId, now), e, result, gatewayTransactionId, eventId, now);
      PaymentStep(txs + [settled.0], [settled.1])
  }

  /** The key constraint gives at most one transaction per order. */
  lemma OneTransactionPerOrder(txs: seq<Transaction>, i: nat, j: nat)
    requires ValidTransactions(txs) && i < j < |txs|
    ensures txs[i].orderId != txs[j].orderId
  {
  }

  /** Handling a request with a fresh transaction id keeps the ids and keys
      unique. */
  lemma RequestKeepsValid(txs: seq<Transaction>, e: Event, transactionId: Uuid, result: GatewayResult,
                          gatewayTransactionId: Uuid, eventId: Uuid, now: Timestamp)
    requires ValidTransactions(txs) && e.payload.PaymentRequestedData?
    requires forall k :: 0 <= k < |txs| ==> txs[k].id != transactionId
    ensures ValidTransactions(OnPaymentRequested(txs, e, transactionId, result, gatewayTransactionId, eventId, now).transactions)
  {
  }

  /** A new request ends completed with `payment.processed` iff the
      gateway approves, and failed with `payment.failed` otherwise. */
  lemma NewRequestOutcome(txs: seq<Transaction>, e: Event, transactionId: Uuid, result: GatewayResult,
                          gatewayTransactionId: Uuid, eventId: Uuid, now: Timestamp)
    requires e.payload.PaymentRequestedData? && FindByKey(txs, PaymentKey(e.payload.orderId)).None?
    ensures var s := OnPaymentRequested(txs, e, transactionId, result, gatewayTransactionId, eventId, now);
      |s.transactions| == |txs| + 1 && s.transactions[..|txs|] == txs && |s.events| == 1 &&
      (s.transactions[|txs|].status == TxCompleted <==> result.Approved?) &&
      (s.events[0].eventType == PaymentProcessed <==> result.Approved?) &&
      (s.events[0].eventType == PaymentFailed <==> result.Declined?)
  {
    var s := OnPaymentRequested(txs, e, transactionId, result, gatewayTransactionId, eventId, now);
    assert s.transactions[..|txs|] == txs;
  }

  /** The transactions after a new request: the old ones and the settled
      new one, whose key occurs nowhere else. */
  lemma NewRequestStored(txs: seq<Transaction>, e: Event, transactionId: Uuid, result: GatewayResult,
                         gatewayTransactionId: Uuid, eventId: Uuid, now: Timestamp)
    requires e.payload.PaymentRequestedData? && FindByKey(txs, PaymentKey(e.payload.orderId)).None?
    ensures var s := OnPaymentRequested(txs, e, transactionId, result, gatewayTransactionId, eventId, now);
      var settled := Settle(NewTransaction(e, transactionId, now), e, result, gatewayTransactionId, eventId, now);
      FindByKey(s.transactions, PaymentKey(e.payload.orderId)) == Some(|txs|) &&
      s.transactions[|txs|] == settled.0
  {
    var settled := Settle(NewTransaction(e, transactionId, now), e, result, gatewayTransactionId, eventId, now);
    FindByKeyAt(txs + [settled.0], |txs|);
  }

  /** A redelivered request after the first one settled changes nothing and
      announces the same outcome with the same transaction. */
  lemma RedeliveryReplays(txs: seq<Transaction>, e: Event, transactionId: Uuid, draw: real, pick: nat,
                          gatewayTransactionId: Uuid, eventId: Uuid, now: Timestamp,
                          transactionId2: Uuid, draw2: real, pick2: nat, gatewayTransactionId2: Uuid,
                          eventId2: Uuid, later: Timestamp)
    requires e.payload.PaymentRequestedData? && FindByKey(txs, PaymentKey(e.payload.orderId)).None?
    ensures var s1 := OnPaymentRequested(txs, e, transactionId, ProcessPayment(draw, pick), gatewayTransactionId, eventId, now);
      var s2 := OnPaymentRequested(s1.transactions, e, transactionId2, ProcessPayment(draw2, pick2),
                                   gatewayTransactionId2, eventId2, later);
      s2.transactions == s1.transactions && |s2.events| == 1 &&
      s2.events[0].eventType == s1.events[0].eventType && s2.events[0].payload == s1.events[0].payload
  {
    var result := ProcessPayment(draw, pick);
    var s1 := OnPaymentRequested(txs, e, transactionId, result, gatewayTransactionId, eventId, now);
    var settled := Settle(NewTransaction(e, transactionId, now), e, result, gatewayTransactionId, eventId, now);
    NewRequestStored(txs, e, transactionId, result, gatewayTransactionId, eventId, now);
    var replayed := Replay(settled.0, e, eventId2, later);
    assert s1.events == [settled.1];
    assert replayed[0].payload == settled.1.payload;
  }

  /** A transaction seen as processing (the handler stopped between its
      two commits) makes every redelivery a silent no-op. */
  lemma ProcessingIsSilent(txs: seq<Transaction>, e: Event, transactionId: Uuid, result: GatewayResult,
                           gatewayTransactionId: Uuid, eventId: Uuid, now: Timestamp)
    requires e.payload.PaymentRequestedData? && FindByKey(txs, PaymentKey(e.payload.orderId)).None?
    ensures var begun := txs + [NewTransaction(e, transactionId, now)];
      OnPaymentRequested(begun, e, transactionId, result, gatewayTransactionId, eventId, now) == PaymentStep(begun, [])
  {
    var begun := txs + [NewTransaction(e, transactionId, now)];
    FindByKeyAt(begun, |txs|);
  }

  /** `handle_payment_refund`: nothing for an unknown or not completed
      transaction, or one already refunded; otherwise one completed refund
      is added and the transaction becomes refunded. No event is emitted. */
  function OnRefund(txs: seq<Transaction>, refunds: seq<Refund>, e: Event, gatewayRefundId: Uuid,
                    now: Timestamp): (r: (seq<Transaction>, seq<Refund>))
    requires e.payload.PaymentRefundedData?
    ensures var found := FindById(txs, e.payload.transactionId);
      (found.None? || txs[found.value].status != TxCompleted || HasCompletedRefund(refunds, e.payload.transactionId)) ==>
        r == (txs, refunds)
    ensures var found := FindById(txs, e.payload.transactionId);
      found.Some? && txs[found.value].status == TxCompleted && !HasCompletedRefund(refunds, e.payload.transactionId) ==>
        r.0 == txs[found.value := txs[found.value].(status := TxRefunded)] &&
        r.1 == refunds + [Refund(e.payload.refundId, e.payload.transactionId, e.payload.orderId, e.correlationId,
                                 e.payload.amount, Some(CancellationReason), RefundCompleted, gatewayRefundId,
                                 now, Some(now))]
  {
    match FindById(txs, e.payload.transactionId)
    case None => (txs, refunds)
    case Some(i) =>
      if txs[i].status != TxCompleted || HasCompletedRefund(refunds, e.payload.transactionId) then (txs, refunds)
      else
        (txs[i := txs[i].(status := TxRefunded)],
         refunds + [Refund(e.payload.refundId, e.payload.transactionId, e.payload.orderId, e.correlationId,
                           e.payload.amount, Some(CancellationReason), RefundCompleted, gatewayRefundId,
                           now, Some(now))])
  }

  /** Refunding twice is refunding once. */
  lemma RefundTwice(txs: seq<Transaction>, refunds: seq<Refund>, e: Event, gatewayRefundId: Uuid, now: Timestamp,
                    gatewayRefundId2: Uuid, later: Timestamp)
    requires ValidTransactions(txs) && e.payload.PaymentRefundedData?
    ensures var r1 := OnRefund(txs, refunds, e, gatewayRefundId, now);
      OnRefund(r1.0, r1.1, e, gatewayRefundId2, later) == r1
  {
    var r1 := OnRefund(txs, refunds, e, gatewayRefundId, now);
    var found := FindById(txs, e.payload.transactionId);
    if found.Some? && txs[found.value].status == TxCompleted && !HasCompletedRefund(refunds, e.payload.transactionId) {
      FindByIdAt(r1.0, found.value);
    }
  }

  /** `subscribe_to_events`: payment requests and refunds, each on its own
      queue. */
  const Subscriptions: seq<Subscription> := [
    Subscription("payment_service_payment_requested", ForEvent(PaymentRequested), DefaultMaxRetries),
    Subscription("payment_service_refund", ForEvent(PaymentRefunded), DefaultMaxRetries)
  ]

  // ---------------------------------------------------------------------
  // The service over its tables

  class Payments {
    var transactions: seq<Transaction>
    var refunds: seq<Refund>
    const outbox: OutboxStore

    ghost predicate Valid()
      reads this, outbox
    {
      outbox.Valid() && ValidTransactions(transactions)
    }

    constructor (store: OutboxStore)
      requires store.Valid()
      ensures Valid() && transactions == [] && refunds == [] && outbox == store
    {
      transactions := [];
      refunds := [];
      outbox := store;
    }

    /** The first session of a new request: store the processing
        transaction and commit. This state is visible to redeliveries. */
    method BeginPayment(e: Event, transactionId: Uuid, now: Timestamp)
      requires Valid() && e.payload.PaymentRequestedData?
      requires FindByKey(transactions, PaymentKey(e.payload.orderId)).None?
      requires forall k :: 0 <= k < |transactions| ==> transactions[k].id != transactionId
      modifies this`transactions
      ensures Valid()
      ensures transactions == old(transactions) + [NewTransaction(e, transactionId, now)]
    {
      transactions := transactions + [NewTransaction(e, transactionId, now)];
    }

    /** The second session of a new request: settle the processing
        transaction by the gateway's answer, save the reporting event and
        commit. */
    method CompletePayment(e: Event, result: GatewayResult, gatewayTransactionId: Uuid, eventId: Uuid, now: Timestamp)
      requires Valid() && e.payload.PaymentRequestedData? && |transactions| > 0
      requires eventId !in outbox.EventIds()
      modifies this`transactions, outbox
      ensures Valid()
      ensures var last := |old(transactions)| - 1;
        var settled := Settle(old(transactions)[last], e, result, gatewayTransactionId, eventId, now);
        transactions == old(transactions)[last := settled.0] &&
        outbox.rows == old(outbox.rows) + NewRows([settled.1], now)
    {
      var last := |transactions| - 1;
      var settled := Settle(transactions[last], e, result, gatewayTransactionId, eventId, now);
      transactions := transactions[last := settled.0];
      outbox.SaveEventToOutbox(settled.1, now);
      assert NewRows([settled.1], now) == [NewRow(settled.1, now)];
    }

    /** Save the at most one event a handler emits. */
    method SaveEvents(events: seq<Event>, now: Timestamp)
      requires outbox.Valid() && |events| <= 1
      requires forall k :: 0 <= k < |events| ==> events[k].eventId !in outbox.EventIds()
      modifies outbox
      ensures outbox.Valid()
      ensures outbox.rows == old(outbox.rows) + NewRows(events, now)
    {
      if events != [] {
        outbox.SaveEventToOutbox(events[0], now);
        assert NewRows(events, now) == [NewRow(events[0], now)];
      } else {
        assert old(outbox.rows) + NewRows(events, now) == outbox.rows;
      }
    }

    /** `handle_payment_requested`. The gateway's answer is the input
        `(draw, pick)`. */
    method HandlePaymentRequested(e: Event, transactionId: Uuid, draw: real, pick: nat,
                                  gatewayTransactionId: Uuid, eventId: Uuid, now: Timestamp)
      requires Valid() && e.payload.PaymentRequestedData?
      requires forall k :: 0 <= k < |transactions| ==> transactions[k].id != transactionId
      requires eventId !in outbox.EventIds()
      modifies this`transactions, outbox
      ensures Valid()
      ensures var s := OnPaymentRequested(old(transactions), e, transactionId, ProcessPayment(draw, pick),
                                          gatewayTransactionId, eventId, now);
        transactions == s.transactions && outbox.rows == old(outbox.rows) + NewRows(s.events, now)
    {
      var existing := FindByKey(transactions, PaymentKey(e.payload.orderId));
      if existing.Some? {
        SaveEvents(Replay(transactions[existing.value], e, eventId, now), now);
        return;
      }
      BeginPayment(e, transactionId, now);
      CompletePayment(e, ProcessPayment(draw, pick), gatewayTransactionId, eventId, now);
    }

    /** `handle_payment_refund`. The refund id comes with the event. */
    method HandlePaymentRefund(e: Event, gatewayRefundId: Uuid, now: Timestamp)
      requires Valid() && e.payload.PaymentRefundedData?
      modifies this`transactions, this`refunds
      ensures Valid()
      ensures (transactions, refunds) == OnRefund(old(transactions), old(refunds), e, gatewayRefundId, now)
    {
      var found := FindById(transactions, e.payload.transactionId);
      if found.None? {
        return;
      }
      var i := found.value;
      if transactions[i].status != TxCompleted {
        return;
      }
      var refunded := false;
      for k := 0 to |refunds|
        invariant refunded <==> exists j :: 0 <= j < k && refunds[j].transactionId == e.payload.transactionId &&
                                            refunds[j].status == RefundCompleted
      {
        if refunds[k].transactionId == e.payload.transactionId && refunds[k].status == RefundCompleted {
          refunded := true;
        }
      }
      if refunded {
        return;
      }
      refunds := refunds + [Refund(e.payload.refundId, e.payload.transactionId, e.payload.orderId, e.correlationId,
                                   e.payload.amount, Some(CancellationReason), RefundCompleted, gatewayRefundId,
                                   now, Some(now))];
      transactions := transactions[i := transactions[i].(status := TxRefunded)];
    }
  }
}
