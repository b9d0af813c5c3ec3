/** The broker's `messages` table and the runtime's `delivery_records` table, row by row: every
  * function here is what one SQL statement does to a row, or the guard under which it does it. */
module DeliveryTables {
  import opened Wrappers

  type MsgId = int
  /** Milliseconds; the broker's own columns and its TTL arithmetic use whole seconds. */
  type Time = int

  const POLL_INTERVAL: Time := 500
  const RETRY_LIMIT: int := 5
  const RETRY_BATCH: int := 128
  const MAX_MESSAGE_TTL: int := 86400
  const DEFAULT_PRIORITY: string := "normal"
  const PRIORITIES: seq<string> := ["critical", "normal", "bulk"]

  function Seconds(t: Time): int { t / 1000 }

  // ---------------------------------------------------------------- messages

  datatype State = Queued | Pushed | Seen | Acked | Expired

  datatype Message = Message(
    from: string, to: string, body: string, priority: string, ttl: Option<int>, state: State,
    createdAt: int, pushedAt: Option<int>, seenAt: Option<int>, ackedAt: Option<int>)

  /** The TTL has run out, whether or not the row says so yet. */
  predicate Lapsed(m: Message, now: Time) { m.ttl.Some? && Seconds(now) >= m.createdAt + m.ttl.value }

  /** The row is in the answer to an inbox or replay request. */
  predicate Replayable(m: Message, now: Time)
  {
    (m.state == Queued || m.state == Pushed || m.state == Seen) && !Lapsed(m, now)
  }

  function AckedRow(m: Message, now: Time): Message
  {
    if m.state == Acked || m.state == Expired then m else m.(state := Acked, ackedAt := Some(Seconds(now)))
  }

  function ExpiredRow(m: Message, now: Time): Message
  {
    if m.state != Acked && m.state != Expired && Lapsed(m, now) then m.(state := Expired) else m
  }

  function PushedRow(m: Message, now: Time): Message { m.(state := Pushed, pushedAt := Some(Seconds(now))) }

  function SeenRow(m: Message, now: Time): Message { m.(state := Seen, seenAt := Some(Seconds(now))) }

  // ---------------------------------------------------------------- delivery records

  datatype Watch = Watch(project: string, agent: string)

  /** The key under which deliveries are deduplicated. */
  datatype Key = Key(watch: Watch, id: MsgId)

  datatype Delivery = Delivery(id: MsgId, from: string, body: string, sentAt: Option<Time>, receivedAt: Option<Time>)

  datatype Record = Record(
    delivery: Delivery, notifiedAt: Option<Time>, attempts: int, nextAt: Option<Time>, exhaustedAt: Option<Time>,
    surfacedAt: Option<Time>, dismissedAt: Option<Time>)

  function NewRecord(d: Delivery): Record { Record(d, None, 0, None, None, None, None) }

  /** What AddRecordIfAbsent demands before it touches the table. */
  predicate Storable(w: Watch, d: Delivery)
  {
    w.project != "" && w.agent != "" && d.id != 0 && d.from != "" && d.body != "" && d.sentAt.Some? && d.receivedAt.Some?
  }

  function MarkedNotified(r: Record, now: Time): Record
  {
    r.(notifiedAt := Some(now), attempts := 0, nextAt := None, exhaustedAt := None)
  }

  /** The row after a failed notification, counted from the attempts its notifier had read. */
  function FailureRecorded(r: Record, seen: int, now: Time): Record
  {
    if seen + 1 >= RETRY_LIMIT
    then r.(attempts := seen + 1, nextAt := None, exhaustedAt := Some(now))
    else r.(attempts := seen + 1, nextAt := Some(now + RetryDelay(seen + 1)), exhaustedAt := None)
  }

  /** Shown to its agent, and put away; both keep an earlier time. */
  function SurfacedRow(r: Record, now: Time): Record { if r.surfacedAt.Some? then r else r.(surfacedAt := Some(now)) }

  function DismissedRow(r: Record, now: Time): Record { if r.dismissedAt.Some? then r else r.(dismissedAt := Some(now)) }

  /** Nothing more will come of the record, and it may be pruned once it is old enough. */
  predicate Finished(r: Record)
  {
    r.dismissedAt.Some? || r.surfacedAt.Some? || r.notifiedAt.Some? || r.exhaustedAt.Some?
  }

  predicate Prunable(r: Record, before: Time)
  {
    r.delivery.receivedAt.Some? && r.delivery.receivedAt.value < before && Finished(r)
  }

  /** handleDelivery has nothing to do for a message already stored like this. */
  predicate Settled(r: Record, now: Time)
  {
    r.notifiedAt.Some? || r.exhaustedAt.Some? || (r.nextAt.Some? && r.nextAt.value > now)
  }

  /** The WHERE clause of the retry sweep. */
  predicate DueForRetry(r: Record, now: Time) { !Settled(r, now) && r.dismissedAt.None? }

  /** Attempts stay within the limit; a record is exhausted exactly at the limit and has a next retry
    * exactly strictly between zero and it. */
  predicate SoundRecord(r: Record)
  {
    && 0 <= r.attempts <= RETRY_LIMIT
    && (r.exhaustedAt.Some? <==> r.attempts == RETRY_LIMIT)
    && (r.nextAt.Some? <==> 0 < r.attempts < RETRY_LIMIT)
  }

  // ---------------------------------------------------------------- back-off

  function Pow2(n: nat): (r: nat)
    ensures r >= 1
  {
    if n == 0 then 1 else 2 * Pow2(n - 1)
  }

  function Min(a: int, b: int): int { if a <= b then a else b }

  /** P * 2^min(n - 1, 5) for the n-th attempt, and P when there was none. */
  function RetryDelay(attempt: int): Time
  {
    if attempt <= 0 then POLL_INTERVAL else POLL_INTERVAL * Pow2(Min(attempt - 1, 5))
  }

  lemma {:induction false} Pow2Grows(m: nat, n: nat)
    requires m <= n
    ensures Pow2(m) <= Pow2(n)
    ensures m < n ==> Pow2(m) < Pow2(n)
  {
    if m < n {
      Pow2Grows(m, n - 1);
    }
  }

  /** The doubling loop with its two caps. */
  method RetryDelayForAttempt(attempt: int) returns (delay: Time)
    ensures delay == RetryDelay(attempt)
    ensures delay == if attempt <= 1 then 500 else if attempt <= 5 then 500 * Pow2(attempt - 1) else 16000
  {
    if attempt <= 0 {
      return POLL_INTERVAL;
    }
    assert Pow2(5) == 32;
    assert attempt >= 6 ==> RetryDelay(attempt) == POLL_INTERVAL * Pow2(5);
    delay := POLL_INTERVAL;
    var i := 1;
    while i < attempt
      invariant 1 <= i <= attempt && i <= 6
      invariant delay == POLL_INTERVAL * Pow2(i - 1)
    {
      if delay >= 32 * POLL_INTERVAL {
        if i - 1 < 5 {
          Pow2Grows(i - 1, 5);
        }
        return 32 * POLL_INTERVAL;
      }
      delay := delay * 2;
      i := i + 1;
    }
    if delay > 32 * POLL_INTERVAL {
      return 32 * POLL_INTERVAL;
    }
  }

  /** Delays never shrink from one attempt to the next and stay between P and 32 P. */
  lemma DelaysGrowToTheCap(m: int, n: int)
    requires m <= n
    ensures POLL_INTERVAL <= RetryDelay(m) <= RetryDelay(n) <= 32 * POLL_INTERVAL
  {
  }
}
