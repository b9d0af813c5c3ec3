/** The broker's message store and the runtime's record store as objects: each method updates its table
  * in place and is proved against the row functions of `DeliveryTables`. */
module DeliveryStores {
  import opened Wrappers
  import opened DeliveryTables
  import opened TextOrder

  datatype SendError = NoSender | NoRecipient | NoBody | BadPriority | TtlNotPositive | TtlTooLong
  datatype AckError = MessageNotFound | NotRecipient
  datatype RecordError = BadArguments | RecordNotFound

  predicate KnownPriority(p: string) { p in PRIORITIES }

  /** The first complaint of Send about its arguments, in the order it makes them. */
  function SendRefusal(from: string, to: string, body: string, priority: string, ttl: Option<int>): Option<SendError>
  {
    if from == "" then Some(NoSender)
    else if to == "" then Some(NoRecipient)
    else if body == "" then Some(NoBody)
    else if priority != "" && !KnownPriority(priority) then Some(BadPriority)
    else if ttl.Some? && ttl.value <= 0 then Some(TtlNotPositive)
    else if ttl.Some? && ttl.value > MAX_MESSAGE_TTL then Some(TtlTooLong)
    else None
  }

  /** What a read of the inbox leaves of a row. */
  function Read(m: Message, name: string, markSeen: bool, now: Time): Message
  {
    if markSeen && m.to == name && Replayable(m, now) && m.state != Seen then SeenRow(m, now) else m
  }

  predicate Listed(rows: map<MsgId, Message>, name: string, now: Time, id: MsgId)
  {
    id in rows && rows[id].to == name && Replayable(rows[id], now)
  }

  /** The ids of the answer to an inbox or replay request, in order, up to `n`. */
  function ListedIds(rows: map<MsgId, Message>, name: string, now: Time, n: int): seq<MsgId>
    decreases n
  {
    if n <= 0 then []
    else ListedIds(rows, name, now, n - 1) + (if Listed(rows, name, now, n) then [n] else [])
  }

  /** The answer names each listed message once, in ascending id order, and no other. */
  lemma {:induction false} ListedIdsExact(rows: map<MsgId, Message>, name: string, now: Time, n: int)
    ensures forall id :: id in ListedIds(rows, name, now, n) <==> 0 < id <= n && Listed(rows, name, now, id)
    ensures forall i, j :: 0 <= i < j < |ListedIds(rows, name, now, n)| ==>
                             ListedIds(rows, name, now, n)[i] < ListedIds(rows, name, now, n)[j]
    decreases n
  {
    if n > 0 {
      ListedIdsExact(rows, name, now, n - 1);
      var shorter := ListedIds(rows, name, now, n - 1);
      assert forall i :: 0 <= i < |shorter| ==> shorter[i] in shorter;
    }
  }

  /** Which messages an agent is shown: those sent to it that are queued, pushed or seen and whose TTL, if they
    * have one, has seconds left. */
  lemma ListedMeans(rows: map<MsgId, Message>, name: string, now: Time, id: MsgId)
    ensures Listed(rows, name, now, id) <==>
              && id in rows && rows[id].to == name && rows[id].state in {State.Queued, State.Pushed, State.Seen}
              && (rows[id].ttl.Some? ==> now / 1000 < rows[id].createdAt + rows[id].ttl.value)
  {
  }

  type Listing = seq<(MsgId, Message)>

  predicate Shows(list: Listing, ids: seq<MsgId>, rows: map<MsgId, Message>)
  {
    |list| == |ids| && forall i :: 0 <= i < |ids| ==> ids[i] in rows && list[i] == (ids[i], rows[ids[i]])
  }

  lemma ShownMeansListed(before: map<MsgId, Message>, name: string, now: Time, lastId: int, list: Listing, rows: map<MsgId, Message>)
    requires Shows(list, ListedIds(before, name, now, lastId), rows)
    requires forall id :: id in before ==> 0 < id <= lastId
    ensures forall i, j :: 0 <= i < j < |list| ==> list[i].0 < list[j].0
    ensures forall id :: id in before ==> ((exists i :: 0 <= i < |list| && list[i].0 == id) <==> Listed(before, name, now, id))
  {
    var ids := ListedIds(before, name, now, lastId);
    ListedIdsExact(before, name, now, lastId);
    forall id | id in before
      ensures (exists i :: 0 <= i < |list| && list[i].0 == id) <==> Listed(before, name, now, id)
    {
      if id in ids {
        var i :| 0 <= i < |ids| && ids[i] == id;
        assert list[i].0 == id;
      }
      if i :| 0 <= i < |list| && list[i].0 == id {
        assert ids[i] in ids;
      }
    }
  }

  lemma MarkedIsRead(before: map<MsgId, Message>, unseen: seq<MsgId>, name: string, markSeen: bool, now: Time)
    requires forall id :: id in unseen <==> markSeen && Listed(before, name, now, id) && before[id].state != State.Seen
    ensures forall id :: id in before ==>
              (if id in unseen then SeenRow(before[id], now) else before[id]) == Read(before[id], name, markSeen, now)
    ensures forall id :: id in before ==>
              Read(before[id], name, markSeen, now) ==
              if markSeen && before[id].to == name && before[id].state in {State.Queued, State.Pushed}
                 && (before[id].ttl.Some? ==> now / 1000 < before[id].createdAt + before[id].ttl.value)
              then before[id].(state := State.Seen, seenAt := Some(now / 1000)) else before[id]
  {
  }

  /** Puts the marked row in place of the one listed under its id. */
  method Replace(list: Listing, id: MsgId, m: Message) returns (r: Listing)
    requires forall i, j :: 0 <= i < j < |list| ==> list[i].0 != list[j].0
    ensures |r| == |list|
    ensures forall i :: 0 <= i < |list| ==> r[i] == if list[i].0 == id then (id, m) else list[i]
  {
    r := list;
    for i := 0 to |list|
      invariant r == list && forall j :: 0 <= j < i ==> list[j].0 != id
    {
      if list[i].0 == id {
        r := r[i := (id, m)];
        break;
      }
    }
  }

  predicate Sendable(m: Message) { m.from != "" && m.to != "" && m.body != "" }

  class MessageStore {
    var rows: map<MsgId, Message>
    var lastId: MsgId

    ghost predicate Valid()
      reads this
    {
      lastId >= 0 && forall id :: id in rows ==> 0 < id <= lastId && Sendable(rows[id])
    }

    constructor ()
      ensures Valid() && rows == map[]
    {
      rows := map[];
      lastId := 0;
    }

    method Send(from: string, to: string, body: string, priority: string, ttl: Option<int>, now: Time)
      returns (r: Result<MsgId, SendError>)
      requires Valid()
      modifies this
      ensures Valid()
      ensures var refusal := SendRefusal(from, to, body, priority, ttl);
              if refusal.Some? then r == Err(refusal.value) && rows == old(rows)
              else r.Ok? && r.value !in old(rows)
                   && rows == old(rows)[r.value := Message(from, to, body, if priority == "" then DEFAULT_PRIORITY else priority,
                                                           ttl, Queued, Seconds(now), None, None, None)]
      ensures r.Ok? ==> Listed(rows, to, now, r.value)
      ensures r.Ok? <==> from != "" && to != "" && body != "" && priority in ["", "critical", "normal", "bulk"]
                         && (ttl.Some? ==> 0 < ttl.value <= 86400)
    {
      if from == "" {
        return Err(NoSender);
      }
      if to == "" {
        return Err(NoRecipient);
      }
      if body == "" {
        return Err(NoBody);
      }
      var level := if priority == "" then DEFAULT_PRIORITY else priority;
      var valid := false;
      for i := 0 to |PRIORITIES|
        invariant valid <==> level in PRIORITIES[..i]
      {
        if level == PRIORITIES[i] {
          valid := true;
        }
      }
      assert PRIORITIES[..|PRIORITIES|] == PRIORITIES;
      assert DEFAULT_PRIORITY == PRIORITIES[1];
      if !valid {
        return Err(BadPriority);
      }
      if ttl.Some? {
        if ttl.value <= 0 {
          return Err(TtlNotPositive);
        }
        if ttl.value > MAX_MESSAGE_TTL {
          return Err(TtlTooLong);
        }
      }
      lastId := lastId + 1;
      rows := rows[lastId := Message(from, to, body, level, ttl, Queued, Seconds(now), None, None, None)];
      return Ok(lastId);
    }

    method Ack(id: MsgId, caller: string, now: Time) returns (r: Result<(), AckError>)
      requires Valid()
      modifies this
      ensures Valid()
      ensures r == if id !in old(rows) then Err(MessageNotFound)
                   else if old(rows)[id].to != caller then Err(NotRecipient) else Ok(())
      ensures rows == if r.Ok? then old(rows)[id := AckedRow(old(rows)[id], now)] else old(rows)
      ensures r.Ok? ==> !Replayable(rows[id], now)
      ensures r.Ok? ==>
                var m := old(rows)[id];
                rows == old(rows)[id := if m.state in {State.Acked, State.Expired} then m
                                        else m.(state := State.Acked, ackedAt := Some(now / 1000))]
    {
      if id !in rows {
        return Err(MessageNotFound);
      }
      if rows[id].to != caller {
        return Err(NotRecipient);
      }
      if !(rows[id].state == Acked || rows[id].state == Expired) {
        rows := rows[id := rows[id].(state := Acked, ackedAt := Some(Seconds(now)))];
      }
      return Ok(());
    }

    method MarkExpired(now: Time) returns (count: nat)
      requires Valid()
      modifies this
      ensures Valid()
      ensures rows == map id | id in old(rows) :: ExpiredRow(old(rows)[id], now)
      ensures count == |set id | id in old(rows) && ExpiredRow(old(rows)[id], now) != old(rows)[id]|
      ensures forall name, id :: Listed(rows, name, now, id) <==> Listed(old(rows), name, now, id)
      ensures rows.Keys == old(rows).Keys
      ensures forall id :: id in old(rows) ==>
                var m := old(rows)[id];
                rows[id] == if m.state in {State.Queued, State.Pushed, State.Seen} && m.ttl.Some?
                               && now / 1000 >= m.createdAt + m.ttl.value
                            then m.(state := State.Expired) else m
    {
      var due := set id | id in rows && rows[id].state != Acked && rows[id].state != Expired && Lapsed(rows[id], now);
      assert due == set id | id in rows && ExpiredRow(rows[id], now) != rows[id];
      rows := map id | id in rows :: if id in due then rows[id].(state := Expired) else rows[id];
      return |due|;
    }

    method MarkPushed(id: MsgId, now: Time)
      requires Valid()
      modifies this
      ensures Valid()
      ensures rows == if id in old(rows) then old(rows)[id := PushedRow(old(rows)[id], now)] else old(rows)
      ensures id in rows ==> rows[id] == old(rows)[id].(state := State.Pushed, pushedAt := Some(now / 1000))
    {
      if id in rows {
        rows := rows[id := rows[id].(state := Pushed, pushedAt := Some(Seconds(now)))];
      }
    }

    /** The first half of an inbox read: the listed rows in id order, and those to be marked. */
    method Collect(name: string, markSeen: bool, now: Time) returns (list: Listing, unseen: seq<MsgId>)
      requires Valid()
      ensures Shows(list, ListedIds(rows, name, now, lastId), rows)
      ensures forall id :: id in unseen <==> markSeen && Listed(rows, name, now, id) && rows[id].state != State.Seen
    {
      list := [];
      unseen := [];
      var id := 1;
      while id <= lastId
        invariant 1 <= id <= lastId + 1
        invariant Shows(list, ListedIds(rows, name, now, id - 1), rows)
        invariant forall o :: o in unseen <==>
                                markSeen && 0 < o < id && Listed(rows, name, now, o) && rows[o].state != State.Seen
      {
        if id in rows && rows[id].to == name && Replayable(rows[id], now) {
          if markSeen && (rows[id].state == State.Queued || rows[id].state == State.Pushed) {
            unseen := unseen + [id];
          }
          list := list + [(id, rows[id])];
        }
        id := id + 1;
      }
    }

    /** Collects the listed rows in id order and, for an inbox, marks the unseen ones seen, in the table
      * and in the answer alike. */
    method Inbox(name: string, markSeen: bool, now: Time) returns (list: Listing)
      requires Valid()
      modifies this
      ensures Valid() && lastId == old(lastId)
      ensures rows == map id | id in old(rows) :: Read(old(rows)[id], name, markSeen, now)
      ensures Shows(list, ListedIds(old(rows), name, now, lastId), rows)
      ensures forall i, j :: 0 <= i < j < |list| ==> list[i].0 < list[j].0
      ensures forall i :: 0 <= i < |list| ==> list[i].0 in rows && list[i].1 == rows[list[i].0]
      ensures forall id :: id in old(rows) ==>
                var m := old(rows)[id];
                (exists i :: 0 <= i < |list| && list[i].0 == id) <==>
                  m.to == name && m.state in {State.Queued, State.Pushed, State.Seen}
                  && (m.ttl.Some? ==> now / 1000 < m.createdAt + m.ttl.value)
      ensures forall id :: id in old(rows) ==>
                var m := old(rows)[id];
                rows[id] == if markSeen && m.to == name && m.state in {State.Queued, State.Pushed}
                               && (m.ttl.Some? ==> now / 1000 < m.createdAt + m.ttl.value)
                            then m.(state := State.Seen, seenAt := Some(now / 1000)) else m
    {
      var unseen;
      list, unseen := Collect(name, markSeen, now);
      list := MarkSeen(list, unseen, name, now);
      MarkedIsRead(old(rows), unseen, name, markSeen, now);
      ShownMeansListed(old(rows), name, now, lastId, list, rows);
    }

    /** The second half of an inbox read, one UPDATE per collected id. */
    method MarkSeen(listed: Listing, unseen: seq<MsgId>, name: string, now: Time) returns (list: Listing)
      requires Valid() && Shows(listed, ListedIds(rows, name, now, lastId), rows)
      requires forall id :: id in unseen ==> id in rows
      modifies this
      ensures Valid() && lastId == old(lastId)
      ensures rows == map id | id in old(rows) :: if id in unseen then SeenRow(old(rows)[id], now) else old(rows)[id]
      ensures Shows(list, ListedIds(old(rows), name, now, lastId), rows)
    {
      ListedIdsExact(rows, name, now, lastId);
      list := listed;
      for j := 0 to |unseen|
        invariant lastId == old(lastId)
        invariant rows == map id | id in old(rows) :: if id in unseen[..j] then SeenRow(old(rows)[id], now) else old(rows)[id]
        invariant Shows(list, ListedIds(old(rows), name, now, lastId), rows)
      {
        var id := unseen[j];
        assert id in unseen && unseen[..j + 1] == unseen[..j] + [id];
        var marked := rows[id].(state := State.Seen, seenAt := Some(Seconds(now)));
        list := Replace(list, id, marked);
        rows := rows[id := marked];
      }
      assert unseen[..|unseen|] == unseen;
    }
  }

  predicate GoodKey(key: Key) { key.watch.project != "" && key.watch.agent != "" && key.id != 0 }

  lemma SomeKey(keys: set<Key>)
    ensures keys == {} || exists key :: key in keys
  {
  }

  function DueKeys(rows: map<Key, Record>, now: Time): set<Key> { set key | key in rows && DueForRetry(rows[key], now) }

  /** ORDER BY project_id, agent_name, message_id */
  predicate KeyLess(a: Key, b: Key)
  {
    || TextLess(a.watch.project, b.watch.project)
    || (a.watch.project == b.watch.project
        && (TextLess(a.watch.agent, b.watch.agent) || (a.watch.agent == b.watch.agent && a.id < b.id)))
  }

  lemma KeyTotal(a: Key, b: Key)
    ensures KeyLess(a, b) || KeyLess(b, a) || a == b
    ensures !KeyLess(a, a)
  {
    TextTotal(a.watch.project, b.watch.project);
    TextTotal(a.watch.agent, b.watch.agent);
    TextTotal(a.watch.project, a.watch.project);
    TextTotal(a.watch.agent, a.watch.agent);
  }

  lemma KeyTransitive(a: Key, b: Key, c: Key)
    requires KeyLess(a, b) && KeyLess(b, c)
    ensures KeyLess(a, c)
  {
    if TextLess(a.watch.project, b.watch.project) && TextLess(b.watch.project, c.watch.project) {
      TextTransitive(a.watch.project, b.watch.project, c.watch.project);
    }
    if TextLess(a.watch.agent, b.watch.agent) && TextLess(b.watch.agent, c.watch.agent) {
      TextTransitive(a.watch.agent, b.watch.agent, c.watch.agent);
    }
  }

  predicate IsFirst(keys: set<Key>, first: Key)
  {
    first in keys && forall key :: key in keys ==> key == first || KeyLess(first, key)
  }

  lemma {:induction false} FirstKeyExists(keys: set<Key>) returns (first: Key)
    requires keys != {}
    ensures IsFirst(keys, first)
    decreases |keys|
  {
    SomeKey(keys);
    var x :| x in keys;
    var others := keys - {x};
    if others == {} {
      assert forall key :: key in keys ==> key in others || key == x;
      first := x;
    } else {
      var y := FirstKeyExists(others);
      KeyTotal(x, y);
      first := if KeyLess(x, y) then x else y;
      forall key | key in keys
        ensures key == first || KeyLess(first, key)
      {
        if key != x && key != y && first == x {
          KeyTransitive(x, y, key);
        }
      }
    }
  }

  /** A due record: not notified, not dismissed, not exhausted, and its next retry, if it has one, not in the future. */
  lemma DueMeans(rows: map<Key, Record>, now: Time)
    ensures forall key :: key in DueKeys(rows, now) <==>
              && key in rows && rows[key].notifiedAt.None? && rows[key].dismissedAt.None? && rows[key].exhaustedAt.None?
              && (rows[key].nextAt.Some? ==> rows[key].nextAt.value <= now)
  {
  }

  /** The first keys of a set in order, all of them or as many as the limit allows. */
  method FirstKeys(keys: set<Key>, limit: int) returns (batch: seq<Key>)
    ensures forall i, j :: 0 <= i < j < |batch| ==> batch[i] != batch[j] && KeyLess(batch[i], batch[j])
    ensures forall key :: key in batch ==> key in keys
    ensures |batch| == if limit > 0 then Min(limit, |keys|) else |keys|
    ensures forall key :: key in keys && key !in batch ==> forall i :: 0 <= i < |batch| ==> KeyLess(batch[i], key)
    ensures limit <= 0 || |keys| <= limit ==> forall key :: key in keys ==> key in batch
  {
    batch := [];
    var left := keys;
    while left != {} && (limit <= 0 || |batch| < limit)
      invariant left <= keys
      invariant forall i, j :: 0 <= i < j < |batch| ==> batch[i] != batch[j] && KeyLess(batch[i], batch[j])
      invariant forall key :: key in batch <==> key in keys - left
      invariant forall i, key :: 0 <= i < |batch| && key in left ==> KeyLess(batch[i], key)
      invariant |batch| + |left| == |keys|
      invariant limit > 0 ==> |batch| <= limit
      decreases |left|
    {
      ghost var first := FirstKeyExists(left);
      var key :| key in left && forall o :: o in left ==> o == key || KeyLess(key, o);
      assert key !in batch;
      assert forall i :: 0 <= i < |batch| ==> batch[i] in batch;
      batch := batch + [key];
      left := left - {key};
    }
  }

  class RecordStore {
    var rows: map<Key, Record>

    constructor ()
      ensures rows == map[]
    {
      rows := map[];
    }

    /** Inserts once and reports whether it did; a stored record is left as it is. */
    method AddRecordIfAbsent(w: Watch, d: Delivery) returns (r: Result<bool, RecordError>)
      modifies this
      ensures r == if Storable(w, d) then Ok(Key(w, d.id) !in old(rows)) else Err(BadArguments)
      ensures rows == if r == Ok(true) then old(rows)[Key(w, d.id) := NewRecord(d)] else old(rows)
      ensures r.Ok? <==> w.project != "" && w.agent != "" && d.id != 0 && d.from != "" && d.body != "" && d.sentAt.Some?
                         && d.receivedAt.Some?
      ensures r == Ok(true) ==> rows[Key(w, d.id)] == Record(d, None, 0, None, None, None, None)
    {
      if w.project == "" || w.agent == "" || d.id == 0 || d.from == "" || d.body == "" || d.sentAt.None? || d.receivedAt.None? {
        return Err(BadArguments);
      }
      var inserted := Key(w, d.id) !in rows;
      if inserted {
        rows := rows[Key(w, d.id) := Record(d, None, 0, None, None, None, None)];
      }
      return Ok(inserted);
    }

    method GetRecord(key: Key) returns (r: Result<Record, RecordError>)
      ensures r == if !GoodKey(key) then Err(BadArguments)
                   else if key !in rows then Err(RecordNotFound) else Ok(rows[key])
    {
      if key.watch.project == "" || key.watch.agent == "" || key.id == 0 {
        return Err(BadArguments);
      }
      if key !in rows {
        return Err(RecordNotFound);
      }
      return Ok(rows[key]);
    }

    method MarkNotified(key: Key, at: Option<Time>) returns (r: Result<(), RecordError>)
      modifies this
      ensures r == if !GoodKey(key) || at.None? then Err(BadArguments)
                   else if key !in old(rows) then Err(RecordNotFound) else Ok(())
      ensures rows == if r.Ok? then old(rows)[key := MarkedNotified(old(rows)[key], at.value)] else old(rows)
      ensures r.Ok? ==> rows[key] == old(rows)[key].(notifiedAt := at, attempts := 0, nextAt := None, exhaustedAt := None)
    {
      if key.watch.project == "" || key.watch.agent == "" || key.id == 0 || at.None? {
        return Err(BadArguments);
      }
      if key !in rows {
        return Err(RecordNotFound);
      }
      rows := rows[key := rows[key].(notifiedAt := at, attempts := 0, nextAt := None, exhaustedAt := None)];
      return Ok(());
    }

    /** Refuses attempts that are not positive and anything but exactly one of the two times. */
    method RecordNotificationFailure(key: Key, attempts: int, nextAt: Option<Time>, exhaustedAt: Option<Time>)
      returns (r: Result<(), RecordError>)
      modifies this
      ensures r == if !GoodKey(key) || attempts <= 0 || nextAt.None? == exhaustedAt.None? then Err(BadArguments)
                   else if key !in old(rows) then Err(RecordNotFound) else Ok(())
      ensures rows == if r.Ok?
                      then old(rows)[key := old(rows)[key].(attempts := attempts, nextAt := nextAt, exhaustedAt := exhaustedAt)]
                      else old(rows)
    {
      if key.watch.project == "" || key.watch.agent == "" || key.id == 0 || attempts <= 0 || nextAt.None? == exhaustedAt.None? {
        return Err(BadArguments);
      }
      if key !in rows {
        return Err(RecordNotFound);
      }
      rows := rows[key := rows[key].(attempts := attempts, nextAt := nextAt, exhaustedAt := exhaustedAt)];
      return Ok(());
    }

    /** The due records by project, agent and id: all of them, or the first so many as the limit allows. */
    method PendingNotificationsBatch(limit: int, now: Time) returns (batch: seq<Key>)
      ensures forall i, j :: 0 <= i < j < |batch| ==> batch[i] != batch[j] && KeyLess(batch[i], batch[j])
      ensures forall key :: key in batch ==> key in DueKeys(rows, now)
      ensures |batch| == if limit > 0 then Min(limit, |DueKeys(rows, now)|) else |DueKeys(rows, now)|
      ensures forall key :: key in DueKeys(rows, now) && key !in batch ==> forall i :: 0 <= i < |batch| ==> KeyLess(batch[i], key)
      ensures limit <= 0 || |DueKeys(rows, now)| <= limit ==> forall key :: key in DueKeys(rows, now) ==> key in batch
      ensures forall key :: key in batch ==> key in rows
      ensures forall i, j :: 0 <= i < j < |batch| ==>
                var a, b := batch[i], batch[j];
                || TextLess(a.watch.project, b.watch.project)
                || (a.watch.project == b.watch.project && TextLess(a.watch.agent, b.watch.agent))
                || (a.watch == b.watch && a.id < b.id)
      ensures limit <= 0 || |DueKeys(rows, now)| <= limit ==>
                forall key :: key in rows ==>
                  var r := rows[key];
                  key in batch <==>
                    r.notifiedAt.None? && r.dismissedAt.None? && r.exhaustedAt.None? && (r.nextAt.Some? ==> r.nextAt.value <= now)
      ensures forall key :: key in batch ==>
                var r := rows[key];
                r.notifiedAt.None? && r.dismissedAt.None? && r.exhaustedAt.None? && (r.nextAt.Some? ==> r.nextAt.value <= now)
    {
      batch := FirstKeys(DueKeys(rows, now), limit);
      DueMeans(rows, now);
    }
  }
}
