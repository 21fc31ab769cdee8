/** The transactional outbox: events are stored as pending rows in the same
    transaction as the business change, and a publisher later hands the
    oldest pending rows to the broker, marking each published or counting a
    failed attempt. An operator call resets failed rows to pending. */
module Outbox {
  import opened Common
  import opened Events
  import opened MessageBroker

  datatype OutboxStatus = OutboxPending | OutboxPublished | OutboxFailed

  function StatusValue(s: OutboxStatus): string {
    match s
    case OutboxPending => "pending"
    case OutboxPublished => "published"
    case OutboxFailed => "failed"
  }

  /** A row of the `outbox` table. The surrogate primary key is left out: a
      row is identified by its position. */
  datatype OutboxMessage = OutboxMessage(
    eventId: Uuid,
    eventType: string,
    aggregateId: Uuid,
    eventData: RawEvent,
    status: OutboxStatus,
    createdAt: Timestamp,
    publishedAt: Option<Timestamp>,
    retryCount: int,
    errorMessage: Option<string>)

  /** The row `save_event_to_outbox` stores for `e`. */
  function NewRow(e: Event, now: Timestamp): OutboxMessage {
    OutboxMessage(e.eventId, Value(e.eventType), e.aggregateId, Serialize(e), OutboxPending,
                  now, None, 0, None)
  }

  /** A saved row describes its event: same id, type and aggregate, pending
      with no attempt yet, and its stored data decodes back to the event
      whenever the event is well typed. */
  lemma SavedRowDescribesEvent(e: Event, now: Timestamp)
    ensures var row := NewRow(e, now);
      row.eventId == e.eventId && Parse(row.eventType) == Some(e.eventType) &&
      row.aggregateId == e.aggregateId && row.status == OutboxPending &&
      row.retryCount == 0 && row.errorMessage.None? && row.publishedAt.None? &&
      (WellTyped(e) ==> Deserialize(row.eventData) == Success(e))
  {
    ParseValue(e.eventType);
    RoundTrip(e);
  }

  /** The rows saved, in order, for a sequence of events. */
  function NewRows(events: seq<Event>, now: Timestamp): (rows: seq<OutboxMessage>)
    ensures |rows| == |events|
    ensures forall i :: 0 <= i < |events| ==> rows[i] == NewRow(events[i], now)
  {
    seq(|events|, i requires 0 <= i < |events| => NewRow(events[i], now))
  }

  lemma NewRowsAppend(events: seq<Event>, e: Event, now: Timestamp)
    ensures NewRows(events + [e], now) == NewRows(events, now) + [NewRow(e, now)]
  {
    assert NewRows(events + [e], now)[|events|] == NewRow(e, now);
  }

  ghost predicate UniqueEventIds(rows: seq<OutboxMessage>) {
    forall i, j :: 0 <= i < j < |rows| ==> rows[i].eventId != rows[j].eventId
  }

  function IdsOf(rows: seq<OutboxMessage>): (ids: set<Uuid>)
    ensures forall i :: 0 <= i < |rows| ==> rows[i].eventId in ids
    ensures forall id :: id in ids ==> exists i :: 0 <= i < |rows| && rows[i].eventId == id
  {
    set i | 0 <= i < |rows| :: rows[i].eventId
  }

  /** Appending a row whose event id is new keeps event ids unique. */
  lemma AppendKeepsUnique(rows: seq<OutboxMessage>, row: OutboxMessage)
    requires UniqueEventIds(rows) && row.eventId !in IdsOf(rows)
    ensures UniqueEventIds(rows + [row])
  {
  }

  /** Appending a row adds exactly its event id. */
  lemma IdsOfAppend(rows: seq<OutboxMessage>, row: OutboxMessage)
    ensures IdsOf(rows + [row]) == IdsOf(rows) + {row.eventId}
  {
    var r := rows + [row];
    forall id | id in IdsOf(r) ensures id in IdsOf(rows) + {row.eventId} {
      var i :| 0 <= i < |r| && r[i].eventId == id;
      if i < |rows| {
        assert r[i] == rows[i];
      }
    }
    forall id | id in IdsOf(rows) + {row.eventId} ensures id in IdsOf(r) {
      if id == row.eventId {
        assert r[|rows|].eventId == id;
      } else {
        var i :| 0 <= i < |rows| && rows[i].eventId == id;
        assert r[i] == rows[i];
      }
    }
  }

  // ---------------------------------------------------------------------
  // SELECT ... WHERE status = s ORDER BY created_at LIMIT n

  ghost predicate Increasing(s: seq<nat>) {
    forall a, b :: 0 <= a < b < |s| ==> s[a] < s[b]
  }

  /** The positions, from `from` on, of the rows with status `status`. */
  function Matching(rows: seq<OutboxMessage>, status: OutboxStatus, from: nat): (r: seq<nat>)
    requires from <= |rows|
    ensures forall k :: 0 <= k < |r| ==> from <= r[k] < |rows| && rows[r[k]].status == status
    ensures forall i :: from <= i < |rows| && rows[i].status == status ==> i in r
    ensures Increasing(r)
    decreases |rows| - from
  {
    if from == |rows| then []
    else if rows[from].status == status then [from] + Matching(rows, status, from + 1)
    else Matching(rows, status, from + 1)
  }

  function CreatedKey(rows: seq<OutboxMessage>): nat -> int {
    (i: nat) => if i < |rows| then rows[i].createdAt else 0
  }

  /** The batch a query selects: the positions of up to `limit` rows with
      status `status`, oldest first; rows created at the same time keep
      their table order. */
  function SelectOldest(rows: seq<OutboxMessage>, status: OutboxStatus, limit: nat): (sel: seq<nat>)
    ensures forall k :: 0 <= k < |sel| ==> sel[k] < |rows| && rows[sel[k]].status == status
    ensures Distinct(sel)
  {
    SortedMatching(rows, status);
    Take(SortBy<nat>(Matching(rows, status, 0), CreatedKey(rows)), limit)
  }

  lemma IncreasingIsDistinct(s: seq<nat>)
    requires Increasing(s)
    ensures Distinct(s)
  {
  }

  lemma SortedMatching(rows: seq<OutboxMessage>, status: OutboxStatus)
    ensures var sorted := SortBy<nat>(Matching(rows, status, 0), CreatedKey(rows));
      |sorted| == |Matching(rows, status, 0)| && Distinct(sorted) &&
      (forall k :: 0 <= k < |sorted| ==> sorted[k] < |rows| && rows[sorted[k]].status == status)
  {
    var m := Matching(rows, status, 0);
    var sorted := SortBy<nat>(m, CreatedKey(rows));
    forall k | 0 <= k < |sorted| ensures sorted[k] < |rows| && rows[sorted[k]].status == status {
      assert sorted[k] in multiset(sorted);
      assert sorted[k] in multiset(m);
    }
    IncreasingIsDistinct(m);
    PermutationKeepsDistinct(m, sorted);
  }

  lemma SortedMatchingComplete(rows: seq<OutboxMessage>, status: OutboxStatus, i: nat)
    requires i < |rows| && rows[i].status == status
    ensures i in SortBy<nat>(Matching(rows, status, 0), CreatedKey(rows))
  {
    var m := Matching(rows, status, 0);
    assert i in multiset(m);
  }

  /** The selected batch holds only rows with the status, each once, and
      `limit` of them, or all of them when there are fewer. */
  lemma SelectOldestRows(rows: seq<OutboxMessage>, status: OutboxStatus, limit: nat)
    ensures var sel := SelectOldest(rows, status, limit);
      (forall k :: 0 <= k < |sel| ==> sel[k] < |rows| && rows[sel[k]].status == status) &&
      Distinct(sel) && |sel| == Min(limit, |Matching(rows, status, 0)|) &&
      (forall i :: 0 <= i < |rows| && rows[i].status == status && i !in sel ==> |sel| == limit)
  {
    var sorted := SortBy<nat>(Matching(rows, status, 0), CreatedKey(rows));
    var sel := SelectOldest(rows, status, limit);
    SortedMatching(rows, status);
    assert sel == sorted[..|sel|];
    forall k | 0 <= k < |sel| ensures sel[k] < |rows| && rows[sel[k]].status == status {
      assert sel[k] == sorted[k];
    }
    forall i | 0 <= i < |rows| && rows[i].status == status && i !in sel ensures |sel| == limit {
      SortedMatchingComplete(rows, status, i);
      assert |sel| < limit ==> sel == sorted;
    }
  }

  /** The batch is in ascending creation time. */
  lemma SelectOldestSorted(rows: seq<OutboxMessage>, status: OutboxStatus, limit: nat)
    ensures var sel := SelectOldest(rows, status, limit);
      forall a, b :: 0 <= a < b < |sel| ==> rows[sel[a]].createdAt <= rows[sel[b]].createdAt
  {
    var key := CreatedKey(rows);
    var sorted := SortBy<nat>(Matching(rows, status, 0), key);
    var sel := SelectOldest(rows, status, limit);
    assert sel == sorted[..|sel|];
    forall a, b | 0 <= a < b < |sel| ensures rows[sel[a]].createdAt <= rows[sel[b]].createdAt {
      assert sel[a] == sorted[a] && sel[b] == sorted[b];
      assert key(sorted[a]) <= key(sorted[b]);
    }
  }

  /** No row with the status that the batch leaves out is older than a row
      in the batch. */
  lemma OldestFirst(rows: seq<OutboxMessage>, status: OutboxStatus, limit: nat, i: nat)
    requires i < |rows| && rows[i].status == status && i !in SelectOldest(rows, status, limit)
    ensures var sel := SelectOldest(rows, status, limit);
      forall k :: 0 <= k < |sel| ==> rows[sel[k]].createdAt <= rows[i].createdAt
  {
    var key := CreatedKey(rows);
    var sorted := SortBy<nat>(Matching(rows, status, 0), key);
    var sel := SelectOldest(rows, status, limit);
    assert sel == sorted[..|sel|];
    SortedMatchingComplete(rows, status, i);
    var p :| 0 <= p < |sorted| && sorted[p] == i;
    forall k | 0 <= k < |sel| ensures rows[sel[k]].createdAt <= rows[i].createdAt {
      assert sel[k] == sorted[k];
      assert key(sorted[k]) <= key(sorted[p]);
    }
  }

  /** Without a row of the status there is nothing to match. */
  lemma {:induction false} NothingMatches(rows: seq<OutboxMessage>, status: OutboxStatus, from: nat)
    requires from <= |rows|
    requires forall i :: from <= i < |rows| ==> rows[i].status != status
    ensures Matching(rows, status, from) == []
    decreases |rows| - from
  {
    if from < |rows| {
      NothingMatches(rows, status, from + 1);
    }
  }

  /** With no row of the status the batch is empty. */
  lemma NothingToSelect(rows: seq<OutboxMessage>, status: OutboxStatus, limit: nat)
    requires forall i :: 0 <= i < |rows| ==> rows[i].status != status
    ensures SelectOldest(rows, status, limit) == []
  {
    NothingMatches(rows, status, 0);
  }

  // ---------------------------------------------------------------------
  // One publish attempt and one publish pass

  /** The outcome of `deserialize_event` followed by `publish_event` for a
      row: decoding may raise, the broker refuses when not connected, and
      otherwise the exchange's outcome `transport` decides. */
  function AttemptOutcome(row: OutboxMessage, declared: bool, transport: Outcome): Outcome {
    match Deserialize(row.eventData)
    case Failure(err) => Fail(DecodeErrorText(err))
    case Success(_) => if !declared then Fail(NotConnected) else transport
  }

  /** A row after one attempt: published with its time, or one more retry
      with the error recorded, failed once the count reaches `max_retries`. */
  function AfterAttempt(row: OutboxMessage, outcome: Outcome, maxRetries: int, now: Timestamp): OutboxMessage {
    if outcome.Pass? then row.(status := OutboxPublished, publishedAt := Some(now))
    else
      var n := row.retryCount + 1;
      row.(retryCount := n, errorMessage := Some(outcome.error),
           status := if n >= maxRetries then OutboxFailed else row.status)
  }

  /** The effect of one attempt on a pending row. */
  lemma AttemptEffect(row: OutboxMessage, outcome: Outcome, maxRetries: int, now: Timestamp)
    requires row.status == OutboxPending
    ensures var r := AfterAttempt(row, outcome, maxRetries, now);
      r.eventId == row.eventId && r.eventData == row.eventData && r.createdAt == row.createdAt &&
      (outcome.Pass? ==> r.status == OutboxPublished && r.publishedAt == Some(now) &&
                         r.retryCount == row.retryCount && r.errorMessage == row.errorMessage) &&
      (outcome.Fail? ==> r.retryCount == row.retryCount + 1 && r.errorMessage == Some(outcome.error) &&
                         r.publishedAt == row.publishedAt &&
                         (r.status == OutboxFailed <==> row.retryCount + 1 >= maxRetries) &&
                         (r.status == OutboxPending <==> row.retryCount + 1 < maxRetries))
  {
  }

  function IndexOf(s: seq<nat>, x: nat): (r: Option<nat>)
    ensures r.Some? ==> r.value < |s| && s[r.value] == x
    ensures r.None? ==> x !in s
  {
    if s == [] then None
    else if s[0] == x then Some(0)
    else match IndexOf(s[1..], x)
         case None => None
         case Some(k) => Some(k + 1)
  }

  lemma {:induction false} IndexOfDistinct(s: seq<nat>, k: nat)
    requires Distinct(s) && k < |s|
    ensures IndexOf(s, s[k]) == Some(k)
  {
    if k > 0 {
      assert s[0] != s[k];
      assert Distinct(s[1..]) by {
        forall a, b | 0 <= a < b < |s[1..]| ensures s[1..][a] != s[1..][b] {
          assert s[1..][a] == s[a + 1] && s[1..][b] == s[b + 1];
        }
      }
      IndexOfDistinct(s[1..], k - 1);
    }
  }

  function PassRow(row: OutboxMessage, pos: Option<nat>, done: nat, declared: bool,
                   transport: nat -> Outcome, maxRetries: int, now: Timestamp): OutboxMessage {
    if pos.Some? && pos.value < done then
      AfterAttempt(row, AttemptOutcome(row, declared, transport(pos.value)), maxRetries, now)
    else row
  }

  /** The table after the first `done` rows of `batch` have been attempted;
      attempt `k` meets the exchange outcome `transport(k)`. */
  function PassRows(rows: seq<OutboxMessage>, batch: seq<nat>, done: nat, declared: bool,
                    transport: nat -> Outcome, maxRetries: int, now: Timestamp): (r: seq<OutboxMessage>)
    ensures |r| == |rows|
  {
    seq(|rows|, i requires 0 <= i < |rows| => PassRow(rows[i], IndexOf(batch, i), done, declared, transport, maxRetries, now))
  }

  /** The messages the first `done` attempts of a pass publish, in order. */
  function PassMessages(rows: seq<OutboxMessage>, batch: seq<nat>, done: nat, declared: bool,
                        transport: nat -> Outcome): seq<Message>
    requires done <= |batch|
  {
    if done == 0 then []
    else
      var i := batch[done - 1];
      PassMessages(rows, batch, done - 1, declared, transport) +
      (if i < |rows| then PublishedBy(rows[i], AttemptOutcome(rows[i], declared, transport(done - 1))) else [])
  }

  function PublishedBy(row: OutboxMessage, outcome: Outcome): seq<Message>
  {
    if outcome.Pass? && Deserialize(row.eventData).Success? then [EventMessage(Deserialize(row.eventData).value, None)] else []
  }

  lemma PassMessagesStep(rows: seq<OutboxMessage>, batch: seq<nat>, k: nat, declared: bool,
                         transport: nat -> Outcome, before: seq<Message>)
    requires k < |batch| && batch[k] < |rows|
    ensures before + PassMessages(rows, batch, k + 1, declared, transport) ==
      (before + PassMessages(rows, batch, k, declared, transport)) +
      PublishedBy(rows[batch[k]], AttemptOutcome(rows[batch[k]], declared, transport(k)))
  {
    PassMessagesSnoc(rows, batch, k, declared, transport);
    var sent := PassMessages(rows, batch, k, declared, transport);
    var more := PublishedBy(rows[batch[k]], AttemptOutcome(rows[batch[k]], declared, transport(k)));
    assert before + (sent + more) == (before + sent) + more;
  }

  lemma PassMessagesSnoc(rows: seq<OutboxMessage>, batch: seq<nat>, k: nat, declared: bool,
                         transport: nat -> Outcome)
    requires k < |batch| && batch[k] < |rows|
    ensures PassMessages(rows, batch, k + 1, declared, transport) ==
      PassMessages(rows, batch, k, declared, transport) +
      PublishedBy(rows[batch[k]], AttemptOutcome(rows[batch[k]], declared, transport(k)))
  {
  }

  lemma PassRowsNone(rows: seq<OutboxMessage>, batch: seq<nat>, declared: bool,
                     transport: nat -> Outcome, maxRetries: int, now: Timestamp)
    ensures PassRows(rows, batch, 0, declared, transport, maxRetries, now) == rows
  {
  }

  lemma PassRowsStep(rows: seq<OutboxMessage>, batch: seq<nat>, done: nat, declared: bool,
                     transport: nat -> Outcome, maxRetries: int, now: Timestamp)
    requires Distinct(batch) && done < |batch|
    requires forall k :: 0 <= k < |batch| ==> batch[k] < |rows|
    ensures var i := batch[done];
      PassRows(rows, batch, done + 1, declared, transport, maxRetries, now) ==
      PassRows(rows, batch, done, declared, transport, maxRetries, now)[i :=
        AfterAttempt(rows[i], AttemptOutcome(rows[i], declared, transport(done)), maxRetries, now)]
  {
    var i := batch[done];
    var a := PassRows(rows, batch, done + 1, declared, transport, maxRetries, now);
    var b := PassRows(rows, batch, done, declared, transport, maxRetries, now);
    var updated := AfterAttempt(rows[i], AttemptOutcome(rows[i], declared, transport(done)), maxRetries, now);
    forall j | 0 <= j < |rows| ensures a[j] == b[i := updated][j] {
      PassRowsAt(rows, batch, done, declared, transport, maxRetries, now, j);
    }
  }

  /** One row of the step: only the row just attempted changes. */
  lemma PassRowsAt(rows: seq<OutboxMessage>, batch: seq<nat>, done: nat, declared: bool,
                   transport: nat -> Outcome, maxRetries: int, now: Timestamp, j: nat)
    requires Distinct(batch) && done < |batch| && j < |rows|
    ensures var i := batch[done];
      PassRows(rows, batch, done + 1, declared, transport, maxRetries, now)[j] ==
      if j == i then AfterAttempt(rows[i], AttemptOutcome(rows[i], declared, transport(done)), maxRetries, now)
      else PassRows(rows, batch, done, declared, transport, maxRetries, now)[j]
  {
    var pos := IndexOf(batch, j);
    if j == batch[done] {
      IndexOfDistinct(batch, done);
    } else if pos.Some? {
      assert batch[pos.value] == j;
    }
    PassRowStep(rows[j], pos, done, declared, transport, maxRetries, now);
  }

  /** One more attempt changes a row exactly when it is the row at that
      position of the batch. */
  lemma PassRowStep(row: OutboxMessage, pos: Option<nat>, done: nat, declared: bool,
                    transport: nat -> Outcome, maxRetries: int, now: Timestamp)
    ensures PassRow(row, pos, done + 1, declared, transport, maxRetries, now) ==
      if pos == Some(done) then AfterAttempt(row, AttemptOutcome(row, declared, transport(done)), maxRetries, now)
      else PassRow(row, pos, done, declared, transport, maxRetries, now)
  {
  }

  /** A pass changes only the rows of its batch: each attempted row is
      published when its attempt succeeds and otherwise counts one more
      failure, and every other row stays as it was. */
  lemma PassEffect(rows: seq<OutboxMessage>, batch: seq<nat>, declared: bool,
                   transport: nat -> Outcome, maxRetries: int, now: Timestamp, i: nat)
    requires Distinct(batch) && i < |rows|
    ensures var r := PassRows(rows, batch, |batch|, declared, transport, maxRetries, now);
      (i !in batch ==> r[i] == rows[i]) &&
      (forall k :: 0 <= k < |batch| && batch[k] == i ==>
        r[i] == AfterAttempt(rows[i], AttemptOutcome(rows[i], declared, transport(k)), maxRetries, now))
  {
    forall k | 0 <= k < |batch| && batch[k] == i
      ensures IndexOf(batch, i) == Some(k)
    {
      IndexOfDistinct(batch, k);
    }
  }

  /** A row that is already published is not in the batch of a publish pass,
      so it stays published with everything else unchanged. */
  lemma PublishedNeverRetried(rows: seq<OutboxMessage>, batchSize: nat, declared: bool,
                              transport: nat -> Outcome, maxRetries: int, now: Timestamp, i: nat)
    requires i < |rows| && rows[i].status == OutboxPublished
    ensures var batch := SelectOldest(rows, OutboxPending, batchSize);
      i !in batch && PassRows(rows, batch, |batch|, declared, transport, maxRetries, now)[i] == rows[i]
  {
    var batch := SelectOldest(rows, OutboxPending, batchSize);
    SelectOldestRows(rows, OutboxPending, batchSize);
    PassEffect(rows, batch, declared, transport, maxRetries, now, i);
  }

  /** A pass never changes an event id, so ids stay unique. */
  lemma PassKeepsEventIds(rows: seq<OutboxMessage>, batch: seq<nat>, done: nat, declared: bool,
                          transport: nat -> Outcome, maxRetries: int, now: Timestamp)
    requires UniqueEventIds(rows)
    ensures var r := PassRows(rows, batch, done, declared, transport, maxRetries, now);
      UniqueEventIds(r) && forall i :: 0 <= i < |rows| ==> r[i].eventId == rows[i].eventId
  {
    var r := PassRows(rows, batch, done, declared, transport, maxRetries, now);
    assert forall i :: 0 <= i < |rows| ==> r[i].eventId == rows[i].eventId;
  }

  // ---------------------------------------------------------------------
  // A row whose every attempt fails

  function FailTimes(row: OutboxMessage, n: nat, error: string, maxRetries: int, now: Timestamp): OutboxMessage {
    if n == 0 then row else AfterAttempt(FailTimes(row, n - 1, error, maxRetries, now), Fail(error), maxRetries, now)
  }

  /** After `n >= 1` failed attempts a fresh row has retry count `n` and is
      failed exactly when `n >= max_retries`: it stays pending, and so is
      selected again, until then. */
  lemma {:induction false} FailTimesStatus(row: OutboxMessage, n: nat, error: string, maxRetries: int, now: Timestamp)
    requires row.status == OutboxPending && row.retryCount == 0 && n >= 1
    ensures FailTimes(row, n, error, maxRetries, now).retryCount == n
    ensures FailTimes(row, n, error, maxRetries, now).status == if n >= maxRetries then OutboxFailed else OutboxPending
  {
    if n > 1 {
      FailTimesStatus(row, n - 1, error, maxRetries, now);
    }
  }

  /** With the default `max_retries` of 3, a row whose publish always fails
      is attempted exactly three times: pending after the first two
      failures, failed after the third. */
  lemma DefaultAlwaysFailingRow(row: OutboxMessage, error: string, now: Timestamp)
    requires row.status == OutboxPending && row.retryCount == 0
    ensures FailTimes(row, 1, error, DefaultPublishRetries, now).status == OutboxPending
    ensures FailTimes(row, 2, error, DefaultPublishRetries, now).status == OutboxPending
    ensures FailTimes(row, 3, error, DefaultPublishRetries, now).status == OutboxFailed
    ensures FailTimes(row, 3, error, DefaultPublishRetries, now).retryCount == 3
  {
    FailTimesStatus(row, 1, error, DefaultPublishRetries, now);
    FailTimesStatus(row, 2, error, DefaultPublishRetries, now);
    FailTimesStatus(row, 3, error, DefaultPublishRetries, now);
  }

  // ---------------------------------------------------------------------
  // Operator reset

  function AfterReset(row: OutboxMessage): OutboxMessage {
    row.(status := OutboxPending, retryCount := 0, errorMessage := None)
  }

  function ResetRows(rows: seq<OutboxMessage>, batch: seq<nat>): (r: seq<OutboxMessage>)
    ensures |r| == |rows|
  {
    seq(|rows|, i requires 0 <= i < |rows| => if i in batch then AfterReset(rows[i]) else rows[i])
  }

  lemma PrefixStep(s: seq<nat>, k: nat)
    requires Distinct(s) && k < |s|
    ensures s[..k + 1] == s[..k] + [s[k]] && s[k] !in s[..k]
  {
    assert s[..k + 1] == s[..k] + [s[k]];
  }

  lemma ResetRowsStep(rows: seq<OutboxMessage>, b: seq<nat>, i: nat)
    requires i < |rows| && i !in b
    ensures ResetRows(rows, b + [i]) == ResetRows(rows, b)[i := AfterReset(rows[i])]
  {
  }

  lemma ResetKeepsEventIds(rows: seq<OutboxMessage>, b: seq<nat>)
    requires UniqueEventIds(rows)
    ensures UniqueEventIds(ResetRows(rows, b))
  {
    var r := ResetRows(rows, b);
    assert forall i :: 0 <= i < |rows| ==> r[i].eventId == rows[i].eventId;
  }

  /** `retry_failed_messages` resets at most `limit` failed rows, the oldest
      ones, to pending with a zero count and no error; every other row is
      unchanged and no row that was not failed is touched. */
  lemma ResetMeaning(rows: seq<OutboxMessage>, limit: nat, i: nat)
    requires i < |rows|
    ensures var batch := SelectOldest(rows, OutboxFailed, limit);
      var r := ResetRows(rows, batch);
      |batch| <= limit &&
      (i in batch ==> rows[i].status == OutboxFailed && r[i].status == OutboxPending &&
                      r[i].retryCount == 0 && r[i].errorMessage.None? &&
                      r[i].eventId == rows[i].eventId && r[i].eventData == rows[i].eventData) &&
      (i !in batch ==> r[i] == rows[i]) &&
      (rows[i].status != OutboxFailed ==> r[i] == rows[i])
  {
    SelectOldestRows(rows, OutboxFailed, limit);
    var batch := SelectOldest(rows, OutboxFailed, limit);
    if i in batch {
      var k :| 0 <= k < |batch| && batch[k] == i;
    }
  }

  // ---------------------------------------------------------------------
  // The table and the publisher

  const DefaultPollInterval: int := 1
  const DefaultBatchSize: nat := 100
  const DefaultPublishRetries: int := 3
  const DefaultResetLimit: nat := 100

  class OutboxStore {
    var rows: seq<OutboxMessage>

    ghost predicate Valid()
      reads this
    {
      UniqueEventIds(rows)
    }

    constructor ()
      ensures Valid() && rows == []
    {
      rows := [];
    }

    function EventIds(): set<Uuid>
      reads this
    {
      IdsOf(rows)
    }

    /** `save_event_to_outbox`: add one pending row for `e`. The event id is
        a fresh uuid4, so it is not yet in the table. */
    method SaveEventToOutbox(e: Event, now: Timestamp)
      requires Valid() && e.eventId !in EventIds()
      modifies this
      ensures Valid()
      ensures rows == old(rows) + [NewRow(e, now)]
      ensures EventIds() == old(EventIds()) + {e.eventId}
    {
      AppendKeepsUnique(rows, NewRow(e, now));
      IdsOfAppend(rows, NewRow(e, now));
      rows := rows + [NewRow(e, now)];
    }
  }

  /** Whether the publisher's polling task exists and in what state. */
  datatype TaskState = NoTask | Polling | Cancelled

  class OutboxPublisher {
    const store: OutboxStore
    const broker: Broker
    const pollInterval: int
    const batchSize: nat
    const maxRetries: int
    var running: bool
    var task: TaskState

    ghost predicate Valid()
      reads this, store, broker
    {
      store.Valid() && broker.Valid()
    }

    constructor (store: OutboxStore, broker: Broker, pollInterval: int, batchSize: nat, maxRetries: int)
      ensures this.store == store && this.broker == broker
      ensures this.pollInterval == pollInterval && this.batchSize == batchSize && this.maxRetries == maxRetries
      ensures !running && task == NoTask
    {
      this.store := store;
      this.broker := broker;
      this.pollInterval := pollInterval;
      this.batchSize := batchSize;
      this.maxRetries := maxRetries;
      running := false;
      task := NoTask;
    }

    /** `start`: a second start while running does nothing. */
    method Start()
      modifies this`running, this`task
      ensures running
      ensures task == if old(running) then old(task) else Polling
    {
      if running {
        return;
      }
      running := true;
      task := Polling;
    }

    /** `stop`: clear the flag and cancel the task; the task reference is kept. */
    method Stop()
      modifies this`running, this`task
      ensures !running
      ensures task == if old(running) && old(task) != NoTask then Cancelled else old(task)
    {
      if !running {
        return;
      }
      running := false;
      if task != NoTask {
        task := Cancelled;
      }
    }

    /** The `try` block for one row: decode its data and publish it. */
    method Attempt(row: OutboxMessage, transport: Outcome) returns (outcome: Outcome)
      modifies broker`published
      ensures outcome == AttemptOutcome(row, broker.declared, transport)
      ensures broker.published == old(broker.published) + PublishedBy(row, outcome)
    {
      match Deserialize(row.eventData) {
        case Failure(err) =>
          outcome := Fail(DecodeErrorText(err));
        case Success(e) =>
          outcome := broker.PublishEvent(e, None, transport);
      }
    }

    /** The loop body of a pass: attempt the `k`-th row of the batch and
        record the result in place. */
    method AttemptNext(ghost rows0: seq<OutboxMessage>, batch: seq<nat>, k: nat, now: Timestamp,
                       transport: nat -> Outcome, ghost published0: seq<Message>)
      requires Distinct(batch) && k < |batch|
      requires forall j :: 0 <= j < |batch| ==> batch[j] < |rows0|
      requires store.rows == PassRows(rows0, batch, k, broker.declared, transport, maxRetries, now)
      requires broker.published == published0 + PassMessages(rows0, batch, k, broker.declared, transport)
      modifies store`rows, broker`published
      ensures store.rows == PassRows(rows0, batch, k + 1, broker.declared, transport, maxRetries, now)
      ensures broker.published == published0 + PassMessages(rows0, batch, k + 1, broker.declared, transport)
    {
      var i := batch[k];
      var row := store.rows[i];
      assert row == rows0[i] by {
        IndexOfDistinct(batch, k);
      }
      var outcome := Attempt(row, transport(k));
      PassMessagesStep(rows0, batch, k, broker.declared, transport, published0);
      PassRowsStep(rows0, batch, k, broker.declared, transport, maxRetries, now);
      store.rows := store.rows[i := AfterAttempt(row, outcome, maxRetries, now)];
    }

    /** `_publish_pending_messages`: one pass over the oldest pending rows.
        Attempt `k` of the pass meets the exchange outcome `transport(k)`;
        `now` is the clock. */
    method PublishPendingMessages(now: Timestamp, transport: nat -> Outcome)
      requires Valid()
      modifies store`rows, broker`published
      ensures Valid()
      ensures var batch := SelectOldest(old(store.rows), OutboxPending, batchSize);
        store.rows == PassRows(old(store.rows), batch, |batch|, broker.declared, transport, maxRetries, now) &&
        broker.published == old(broker.published) + PassMessages(old(store.rows), batch, |batch|, broker.declared, transport)
    {
      ghost var rows0 := store.rows;
      ghost var published0 := broker.published;
      var batch := SelectOldest(store.rows, OutboxPending, batchSize);
      PassRowsNone(rows0, batch, broker.declared, transport, maxRetries, now);
      assert published0 + [] == published0;
      if batch == [] {
        return;
      }
      var k := 0;
      while k < |batch|
        invariant 0 <= k <= |batch|
        invariant store.rows == PassRows(rows0, batch, k, broker.declared, transport, maxRetries, now)
        invariant broker.published == published0 + PassMessages(rows0, batch, k, broker.declared, transport)
      {
        AttemptNext(rows0, batch, k, now, transport, published0);
        k := k + 1;
      }
      PassKeepsEventIds(rows0, batch, |batch|, broker.declared, transport, maxRetries, now);
    }

    /** `retry_failed_messages`: reset up to `limit` oldest failed rows. */
    method RetryFailedMessages(limit: nat)
      requires Valid()
      modifies store`rows
      ensures Valid()
      ensures store.rows == ResetRows(old(store.rows), SelectOldest(old(store.rows), OutboxFailed, limit))
    {
      ghost var rows0 := store.rows;
      var batch := SelectOldest(store.rows, OutboxFailed, limit);
      SelectOldestRows(rows0, OutboxFailed, limit);
      assert batch[..0] == [];
      var k := 0;
      while k < |batch|
        invariant 0 <= k <= |batch|
        invariant store.rows == ResetRows(rows0, batch[..k])
      {
        var i := batch[k];
        PrefixStep(batch, k);
        ResetRowsStep(rows0, batch[..k], i);
        store.rows := store.rows[i := AfterReset(store.rows[i])];
        k := k + 1;
      }
      assert batch[..k] == batch;
      ResetKeepsEventIds(rows0, batch);
    }
  }
}
