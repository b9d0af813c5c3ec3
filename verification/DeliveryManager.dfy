/** The manager's delivery methods and CatchUp as objects at work, each call run to its end with no other
  * routine in between; `DeliveryRuns` takes the same steps apart and interleaves them. */
module DeliveryManager {
  import opened Wrappers
  import opened DeliveryTables
  import opened DeliveryStores

  /** How WriteSignal went. */
  datatype Signal = Written | CapExceeded | Broken

  /** The row after a delivery or a retry that reached notifyRecord. */
  function Notified(r: Record, signal: Signal, now: Time): Record
  {
    match signal
    case Written => MarkedNotified(r, now)
    case CapExceeded => r
    case Broken => FailureRecorded(r, r.attempts, now)
  }

  /** The records after handleDelivery got hold of the key. */
  function Handled(rows: map<Key, Record>, key: Key, d: Delivery, signal: Signal, now: Time): map<Key, Record>
  {
    if key !in rows then rows[key := Notified(NewRecord(d), signal, now)]
    else if Settled(rows[key], now) then rows
    else rows[key := Notified(rows[key], signal, now)]
  }

  /** The records after a retry sweep over the keys of `taken`. */
  function Retried(rows: map<Key, Record>, taken: set<Key>, signals: map<Key, Signal>, now: Time): map<Key, Record>
  {
    map key | key in rows :: if key in taken then Notified(rows[key], SignalFor(signals, key), now) else rows[key]
  }

  /** Signal files are written unless this run's oracle says otherwise. */
  function SignalFor(signals: map<Key, Signal>, key: Key): Signal { if key in signals then signals[key] else Written }

  ghost predicate SoundRows(rows: map<Key, Record>)
  {
    forall key :: key in rows ==> GoodKey(key) && SoundRecord(rows[key])
  }

  lemma NotifiedKeepsSound(r: Record, signal: Signal, now: Time)
    requires SoundRecord(r) && !Settled(r, now)
    ensures SoundRecord(Notified(r, signal, now))
    ensures !signal.CapExceeded? ==> Settled(Notified(r, signal, now), now)
    ensures signal.CapExceeded? ==> !Settled(Notified(r, signal, now), now)
  {
  }

  /** What notifying makes of a row, column by column: a written signal clears what failures had left, a failed
    * one counts one more and schedules the next or, the fifth time, none. */
  lemma NotifiedMeans(r: Record, signal: Signal, now: Time)
    requires 0 <= r.attempts
    ensures var n, k := Notified(r, signal, now), r.attempts + 1;
            && n.delivery == r.delivery && n.surfacedAt == r.surfacedAt && n.dismissedAt == r.dismissedAt
            && (signal.CapExceeded? ==> n == r)
            && (signal.Written? ==> n.notifiedAt == Some(now) && n.attempts == 0 && n.nextAt.None? && n.exhaustedAt.None?)
            && (signal.Broken? ==> n.notifiedAt == r.notifiedAt && n.attempts == k)
            && (signal.Broken? && k < 5 ==> n.nextAt == Some(now + 500 * Pow2(k - 1)) && n.exhaustedAt.None?)
            && (signal.Broken? && k >= 5 ==> n.nextAt.None? && n.exhaustedAt == Some(now))
  {
  }

  /** What handling a delivery makes of the rows: a row that is notified, exhausted or not due yet stays, any
    * other is notified, after it was inserted if it was missing; no other row changes. */
  lemma HandledMeans(rows: map<Key, Record>, key: Key, d: Delivery, signal: Signal, now: Time)
    ensures var after := Handled(rows, key, d, signal, now);
            && after.Keys == rows.Keys + {key}
            && (forall other :: other in rows && other != key ==> after[other] == rows[other])
            && (key !in rows ==> after[key] == Notified(Record(d, None, 0, None, None, None, None), signal, now))
            && (key in rows ==>
                  var r := rows[key];
                  after[key] == if r.notifiedAt.Some? || r.exhaustedAt.Some? || (r.nextAt.Some? && now < r.nextAt.value)
                                then r else Notified(r, signal, now))
  {
  }

  function ErrorOf(r: Result<(), RecordError>): Option<RecordError>
  {
    match r
    case Ok(_) => None
    case Err(e) => Some(e)
  }

  /** A second delivery of the same message at the same time does nothing more, unless the signal cap had
    * left the first one open. */
  lemma RedeliveryIsAbsorbed(rows: map<Key, Record>, key: Key, d: Delivery, e: Delivery, s: Signal, t: Signal, now: Time)
    requires SoundRows(rows)
    ensures var once := Handled(rows, key, d, s, now);
            Handled(once, key, e, t, now) == if s.CapExceeded? && !(key in rows && Settled(rows[key], now))
                                             then Handled(rows, key, d, t, now) else once
  {
  }

  class Manager {
    const store: RecordStore
    var inflight: set<Key>

    ghost predicate Valid()
      reads this, store
    {
      SoundRows(store.rows)
    }

    constructor (store: RecordStore)
      requires SoundRows(store.rows)
      ensures Valid() && this.store == store && inflight == {}
    {
      this.store := store;
      inflight := {};
    }

    method BeginInflight(key: Key) returns (ok: bool)
      modifies this
      ensures ok <==> key !in old(inflight)
      ensures inflight == old(inflight) + {key}
    {
      if key in inflight {
        return false;
      }
      inflight := inflight + {key};
      return true;
    }

    method NotifyRecord(key: Key, signal: Signal, now: Time) returns (ok: bool)
      requires GoodKey(key)
      modifies store
      ensures ok <==> signal.CapExceeded? || (signal.Written? && key in old(store.rows))
      ensures store.rows == if signal.Written? && key in old(store.rows)
                            then old(store.rows)[key := MarkedNotified(old(store.rows)[key], now)] else old(store.rows)
    {
      if signal.CapExceeded? {
        return true;
      }
      if signal.Broken? {
        return false;
      }
      var r := store.MarkNotified(key, Some(now));
      return r.Ok?;
    }

    /** Counts from the attempts of the record that the caller read. */
    method RecordNotificationFailure(key: Key, seen: int, now: Time) returns (r: Result<(), RecordError>)
      requires GoodKey(key) && seen >= 0
      modifies store
      ensures r == if key in old(store.rows) then Ok(()) else Err(RecordNotFound)
      ensures store.rows == if r.Ok? then old(store.rows)[key := FailureRecorded(old(store.rows)[key], seen, now)]
                            else old(store.rows)
    {
      var attempts := seen + 1;
      if attempts >= RETRY_LIMIT {
        r := store.RecordNotificationFailure(key, attempts, None, Some(now));
      } else {
        var delay := RetryDelayForAttempt(attempts);
        r := store.RecordNotificationFailure(key, attempts, Some(now + delay), None);
      }
    }

    /** A key in flight is left alone and counts as handled. Otherwise the delivery is stored once, and
      * notified unless its record says that it is done or not due. */
    method HandleDelivery(w: Watch, d: Delivery, signal: Signal, now: Time) returns (ok: bool)
      requires Valid()
      modifies this, store
      ensures Valid() && inflight == old(inflight)
      ensures ok <==> Key(w, d.id) in old(inflight) || Storable(w, d)
      ensures store.rows == if Key(w, d.id) in old(inflight) || !Storable(w, d) then old(store.rows)
                            else Handled(old(store.rows), Key(w, d.id), d, signal, now)
    {
      var key := Key(w, d.id);
      var began := BeginInflight(key);
      if !began {
        return true;
      }
      var inserted := store.AddRecordIfAbsent(w, d);
      if inserted.Err? {
        inflight := inflight - {key};
        return false;
      }
      var current := NewRecord(d);
      if !inserted.value {
        var existing := store.GetRecord(key);
        current := existing.value;
        if current.notifiedAt.Some? || current.exhaustedAt.Some? || (current.nextAt.Some? && current.nextAt.value > now) {
          inflight := inflight - {key};
          return true;
        }
      }
      NotifiedKeepsSound(current, signal, now);
      ok := NotifyRecord(key, signal, now);
      if !ok {
        var recorded := RecordNotificationFailure(key, current.attempts, now);
        ok := recorded.Ok?;
      }
      inflight := inflight - {key};
      assert store.rows == Handled(old(store.rows), key, d, signal, now);
    }

    /** One record of the sweep's batch, as the batch read it; an error is one of recording a failure. */
    method RetryOne(key: Key, rec: Record, signal: Signal, now: Time) returns (took: bool, err: Option<RecordError>)
      requires Valid() && key in store.rows && store.rows[key] == rec && !Settled(rec, now)
      modifies this, store
      ensures Valid() && inflight == old(inflight)
      ensures took <==> key !in inflight
      ensures err.None?
      ensures store.rows == if took then old(store.rows)[key := Notified(rec, signal, now)] else old(store.rows)
    {
      err := None;
      took := BeginInflight(key);
      if took {
        NotifiedKeepsSound(rec, signal, now);
        var ok := NotifyRecord(key, signal, now);
        if !ok {
          var recorded := RecordNotificationFailure(key, rec.attempts, now);
          err := ErrorOf(recorded);
        }
        inflight := inflight - {key};
      }
    }

    /** Every due record of the batch that is not in flight is retried once, and the sweep reports no error.
      * A batch below the limit leaves no other record due than those in flight and those whose signal hit
      * the cap. */
    method RetryPendingNotifications(signals: map<Key, Signal>, now: Time)
      returns (firstErr: Option<RecordError>, ghost taken: set<Key>)
      requires Valid()
      modifies this, store
      ensures Valid() && inflight == old(inflight) && firstErr.None?
      ensures store.rows == Retried(old(store.rows), taken, signals, now)
      ensures taken <= DueKeys(old(store.rows), now) - inflight && |taken| <= 128
      ensures |DueKeys(old(store.rows), now)| <= 128 ==>
                forall key :: key in DueKeys(store.rows, now) ==> key in inflight || SignalFor(signals, key).CapExceeded?
    {
      var read := store.rows;
      var batch := store.PendingNotificationsBatch(RETRY_BATCH, now);
      firstErr := None;
      taken := {};
      assert Retried(read, {}, signals, now) == read;
      for i := 0 to |batch|
        invariant inflight == old(inflight) && firstErr.None?
        invariant TakenSoFar(batch[..i], inflight, taken)
        invariant store.rows == Retried(read, taken, signals, now)
      {
        var key := batch[i];
        TakeOneMore(batch, i, inflight, taken);
        Untouched(read, taken, key, batch, inflight, signals, now);
        var took, err := RetryOne(key, read[key], SignalFor(signals, key), now);
        if firstErr.None? {
          firstErr := err;
        }
        if took {
          RetriedOneMore(read, taken, key, signals, now);
          taken := taken + {key};
        }
      }
      assert batch[..|batch|] == batch;
      RetriedKeepsSound(read, taken, signals, now);
    }
  }

  /** The keys the sweep has taken of the part of the batch behind it. */
  ghost predicate TakenSoFar(behind: seq<Key>, inflight: set<Key>, taken: set<Key>)
  {
    (forall key :: key in taken <==> key in behind && key !in inflight) && |taken| <= |behind|
  }

  lemma TakeOneMore(batch: seq<Key>, i: nat, inflight: set<Key>, taken: set<Key>)
    requires i < |batch| && TakenSoFar(batch[..i], inflight, taken)
    requires forall j, k :: 0 <= j < k < |batch| ==> batch[j] != batch[k]
    ensures batch[i] in batch && batch[i] !in taken
    ensures TakenSoFar(batch[..i + 1], inflight, if batch[i] in inflight then taken else taken + {batch[i]})
    ensures forall key :: key in taken ==> key in batch && key !in inflight
  {
    assert batch[..i + 1] == batch[..i] + [batch[i]];
  }

  lemma Untouched(rows: map<Key, Record>, taken: set<Key>, key: Key, batch: seq<Key>, inflight: set<Key>,
                  signals: map<Key, Signal>, now: Time)
    requires SoundRows(rows) && key !in taken && key in batch
    requires forall k :: k in batch ==> k in DueKeys(rows, now)
    requires forall k :: k in taken ==> k in batch
    ensures key in rows && Retried(rows, taken, signals, now)[key] == rows[key] && !Settled(rows[key], now)
    ensures SoundRows(Retried(rows, taken, signals, now))
  {
    RetriedKeepsSound(rows, taken, signals, now);
  }

  lemma RetriedOneMore(rows: map<Key, Record>, taken: set<Key>, key: Key, signals: map<Key, Signal>, now: Time)
    requires key in rows && key !in taken
    ensures Retried(rows, taken, signals, now)[key := Notified(rows[key], SignalFor(signals, key), now)]
            == Retried(rows, taken + {key}, signals, now)
  {
  }

  lemma RetriedKeepsSound(rows: map<Key, Record>, taken: set<Key>, signals: map<Key, Signal>, now: Time)
    requires SoundRows(rows) && taken <= DueKeys(rows, now)
    ensures SoundRows(Retried(rows, taken, signals, now))
    ensures forall key :: key in DueKeys(Retried(rows, taken, signals, now), now) ==>
                            key in DueKeys(rows, now) && (key in taken ==> SignalFor(signals, key).CapExceeded?)
  {
  }

  // ---------------------------------------------------------------- catching up

  function DeliveryOf(id: MsgId, m: Message, now: Time): Delivery
  {
    Delivery(id, m.from, m.body, Some(1000 * m.createdAt), Some(now))
  }

  /** The message was acked on the strength of a stored record, or of a key in flight. */
  predicate AckedFor(before: Message, after: Message, key: Key, rows: map<Key, Record>, inflight: set<Key>, now: Time)
  {
    before.to == key.watch.agent && Replayable(before, now) && after == AckedRow(before, now)
    && (key in rows || key in inflight)
  }

  /** The messages of `done`, and no others, have been acked. */
  ghost predicate AckedUpTo(before: map<MsgId, Message>, after: map<MsgId, Message>, done: seq<MsgId>, w: Watch,
                            records: map<Key, Record>, inflight: set<Key>, now: Time)
  {
    && after.Keys == before.Keys
    && forall id :: id in before ==>
         if id in done then AckedFor(before[id], after[id], Key(w, id), records, inflight, now) else after[id] == before[id]
  }

  lemma AckOneMore(before: map<MsgId, Message>, after: map<MsgId, Message>, done: seq<MsgId>, id: MsgId, w: Watch,
                   records: map<Key, Record>, records': map<Key, Record>, inflight: set<Key>, now: Time)
    requires AckedUpTo(before, after, done, w, records, inflight, now) && records.Keys <= records'.Keys
    requires id !in done && Listed(before, w.agent, now, id) && (Key(w, id) in records' || Key(w, id) in inflight)
    ensures id in after && after[id] == before[id]
    ensures AckedUpTo(before, after[id := AckedRow(after[id], now)], done + [id], w, records', inflight, now)
  {
  }

  /** What has been stored for the messages of `done`: nothing that was stored before is touched, and what is
    * new is what the message says. */
  ghost predicate StoredUpTo(before: map<MsgId, Message>, done: seq<MsgId>, w: Watch,
                             earlier: map<Key, Record>, records: map<Key, Record>, inflight: set<Key>, now: Time)
  {
    && (forall key :: key in earlier ==> key in records && records[key].delivery == earlier[key].delivery)
    && (forall id :: id in done && id in before && Key(w, id) !in earlier && Key(w, id) !in inflight ==>
          Key(w, id) in records && records[Key(w, id)].delivery == DeliveryOf(id, before[id], now))
  }

  lemma StoreOneMore(before: map<MsgId, Message>, done: seq<MsgId>, id: MsgId, w: Watch, earlier: map<Key, Record>,
                     records: map<Key, Record>, inflight: set<Key>, signal: Signal, now: Time)
    requires StoredUpTo(before, done, w, earlier, records, inflight, now)
    requires id in before && id !in done
    requires Key(w, id) in records ==> Key(w, id) in earlier
    ensures Key(w, id) in inflight ==> StoredUpTo(before, done + [id], w, earlier, records, inflight, now)
    ensures StoredUpTo(before, done + [id], w, earlier,
                       Handled(records, Key(w, id), DeliveryOf(id, before[id], now), signal, now), inflight, now)
  {
  }

  /** No record appears but for the messages of `done`. */
  ghost predicate NewOnlyFor(done: seq<MsgId>, w: Watch, earlier: map<Key, Record>, records: map<Key, Record>)
  {
    forall key :: key in records && key !in earlier ==> key.watch == w && key.id in done
  }

  /** How far CatchUp has come: the messages of `done` are handled and acked. */
  ghost predicate CaughtUp(before: map<MsgId, Message>, after: map<MsgId, Message>, done: seq<MsgId>, w: Watch,
                           earlier: map<Key, Record>, records: map<Key, Record>, inflight: set<Key>, now: Time)
  {
    && AckedUpTo(before, after, done, w, records, inflight, now)
    && StoredUpTo(before, done, w, earlier, records, inflight, now)
    && NewOnlyFor(done, w, earlier, records)
  }

  /** One message more, as the handler leaves the records and the ack the message. */
  lemma CatchUpStep(before: map<MsgId, Message>, after: map<MsgId, Message>, done: seq<MsgId>, id: MsgId, w: Watch,
                    earlier: map<Key, Record>, records: map<Key, Record>, records': map<Key, Record>, inflight: set<Key>,
                    signal: Signal, now: Time)
    requires CaughtUp(before, after, done, w, earlier, records, inflight, now)
    requires id !in done && Listed(before, w.agent, now, id)
    requires records' == if Key(w, id) in inflight then records
                         else Handled(records, Key(w, id), DeliveryOf(id, before[id], now), signal, now)
    ensures id in after && after[id] == before[id]
    ensures CaughtUp(before, after[id := AckedRow(after[id], now)], done + [id], w, earlier, records', inflight, now)
  {
    assert Key(w, id) in records ==> Key(w, id) in earlier;
    StoreOneMore(before, done, id, w, earlier, records, inflight, signal, now);
    AckOneMore(before, after, done, id, w, records, records', inflight, now);
  }

  /** What having caught up on a whole replay comes to, in the columns of messages and records. */
  lemma CaughtUpMeans(before: map<MsgId, Message>, after: map<MsgId, Message>, ids: seq<MsgId>, lastId: int, w: Watch,
                      earlier: map<Key, Record>, records: map<Key, Record>, inflight: set<Key>, now: Time)
    requires CaughtUp(before, after, ids, w, earlier, records, inflight, now) && ids == ListedIds(before, w.agent, now, lastId)
    requires forall id :: id in before ==> 0 < id <= lastId
    ensures forall id :: id in before ==>
              if Listed(before, w.agent, now, id) then AckedFor(before[id], after[id], Key(w, id), records, inflight, now)
              else after[id] == before[id]
    ensures forall key :: key in earlier ==> key in records && records[key].delivery == earlier[key].delivery
    ensures forall id :: Listed(before, w.agent, now, id) && Key(w, id) !in earlier && Key(w, id) !in inflight ==>
              && Key(w, id) in records
              && var d, msg := records[Key(w, id)].delivery, before[id];
              && d.id == id && d.from == msg.from && d.body == msg.body
              && d.sentAt == Some(1000 * msg.createdAt) && d.receivedAt == Some(now)
  {
    ListedIdsExact(before, w.agent, now, lastId);
  }

  lemma NextListed(before: map<MsgId, Message>, name: string, now: Time, lastId: int, ids: seq<MsgId>, i: nat)
    requires ids == ListedIds(before, name, now, lastId) && i < |ids|
    ensures Listed(before, name, now, ids[i]) && ids[i] !in ids[..i] && ids[..i + 1] == ids[..i] + [ids[i]]
  {
    ListedIdsExact(before, name, now, lastId);
    assert ids[i] in ids;
  }

  /** Replays the agent's messages, hands each to the manager and acks it. Nothing else in the broker
    * changes, and nothing is acked without a record or a key in flight; when no handler fails, every
    * message the agent could have replayed is acked. */
  method CatchUp(m: Manager, broker: MessageStore, w: Watch, signals: map<Key, Signal>, now: Time) returns (ok: bool)
    requires m.Valid() && broker.Valid()
    modifies m, m.store, broker
    ensures m.Valid() && broker.Valid() && m.inflight == old(m.inflight) && old(m.store.rows.Keys) <= m.store.rows.Keys
    ensures ok <==> w.project != "" && w.agent != ""
    ensures broker.rows.Keys == old(broker.rows.Keys)
    ensures forall id :: id in broker.rows ==>
              if ok && Listed(old(broker.rows), w.agent, now, id)
              then AckedFor(old(broker.rows)[id], broker.rows[id], Key(w, id), m.store.rows, m.inflight, now)
              else broker.rows[id] == old(broker.rows)[id]
    ensures forall key :: key in old(m.store.rows) ==> m.store.rows[key].delivery == old(m.store.rows)[key].delivery
    ensures ok ==> forall id :: Listed(old(broker.rows), w.agent, now, id)
                                && Key(w, id) !in old(m.store.rows) && Key(w, id) !in m.inflight ==>
                     && Key(w, id) in m.store.rows
                     && var d, msg := m.store.rows[Key(w, id)].delivery, old(broker.rows)[id];
                     && d.id == id && d.from == msg.from && d.body == msg.body
                     && d.sentAt == Some(1000 * msg.createdAt) && d.receivedAt == Some(now)
  {
    if w.project == "" || w.agent == "" {
      return false;
    }
    ghost var before, earlier, last := broker.rows, m.store.rows, broker.lastId;
    var list := broker.Inbox(w.agent, false, now);
    assert broker.rows == before;
    ghost var ids := ListedIds(before, w.agent, now, last);
    for i := 0 to |list|
      invariant m.Valid() && broker.Valid() && m.inflight == old(m.inflight)
      invariant CaughtUp(before, broker.rows, ids[..i], w, earlier, m.store.rows, m.inflight, now)
    {
      var id, msg := list[i].0, list[i].1;
      NextListed(before, w.agent, now, last, ids, i);
      ghost var records := m.store.rows;
      var handled := m.HandleDelivery(w, DeliveryOf(id, msg, now), SignalFor(signals, Key(w, id)), now);
      if !handled {
        return false;
      }
      CatchUpStep(before, broker.rows, ids[..i], id, w, earlier, records, m.store.rows, m.inflight,
                  SignalFor(signals, Key(w, id)), now);
      var acked := broker.Ack(id, w.agent, now);
      if acked.Err? {
        return false;
      }
    }
    assert ids[..|ids|] == ids;
    CaughtUpMeans(before, broker.rows, ids, last, w, earlier, m.store.rows, m.inflight, now);
    return true;
  }
}
