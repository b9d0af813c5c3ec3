/** The task store as an object: each method updates the table in place and is proved against the
  * statement functions of `TaskTable`. `Sound` is kept by all of them. */
module TaskStore {
  import opened Wrappers
  import opened TaskTable

  datatype StoreError = TtlNegative | TtlTooLong | NoEligibleTasks | InvalidClaim | NotCancelable | NotFound | NoFields

  lemma SomeMember(ids: set<TaskId>)
    ensures ids == {} || exists id :: id in ids
  {
    if forall id :: id !in ids {
      assert ids == {};
    }
  }

  /** Some eligible row can always be returned when there is an eligible row at all. */
  lemma {:induction false} BestRowExists(rows: Rows, f: ClaimFilter, among: set<TaskId>) returns (best: TaskId)
    requires forall id :: id in among ==> id in rows && Eligible(rows[id], f)
    requires among != {}
    ensures best in among && forall o :: o in among ==> RanksBefore(rows[best], rows[o])
    decreases |among|
  {
    SomeMember(among);
    var x :| x in among;
    if among - {x} == {} {
      assert forall o :: o in among ==> o in among - {x} || o == x;
      best := x;
    } else {
      var y := BestRowExists(rows, f, among - {x});
      best := if RanksBefore(rows[x], rows[y]) then x else y;
    }
  }

  /** Rows as they are once every task of `ids` is unblocked. */
  function UnblockAll(rows: Rows, ids: set<TaskId>, now: Time): Rows
  {
    map id | id in rows :: if id in ids then rows[id].(blocked := false, updatedAt := now) else rows[id]
  }

  function FailAll(rows: Rows, ids: set<TaskId>, now: Time): Rows
  {
    map id | id in rows :: if id in ids
      then rows[id].(state := Failed, failureReason := Some("dependency_failed"), updatedAt := now)
      else rows[id]
  }

  /** The rows a finished ResolveDeps(dep) unblocks. */
  function Ready(rows: Rows, dep: TaskId): set<TaskId>
  {
    set id | id in rows && WaitsOn(rows[id], dep) && AllCompleted(rows, rows[id].dependsOn)
  }

  function Waiting(rows: Rows, dep: TaskId): set<TaskId>
  {
    set id | id in rows && WaitsOn(rows[id], dep)
  }

  lemma UnblockingCompletesNothing(rows: Rows, freed: set<TaskId>, now: Time, id: TaskId)
    requires id in rows
    ensures UnblockAll(rows, freed, now).Keys == rows.Keys
    ensures UnblockAll(rows, freed, now)[id].dependsOn == rows[id].dependsOn
    ensures AllCompleted(UnblockAll(rows, freed, now), rows[id].dependsOn) <==> AllCompleted(rows, rows[id].dependsOn)
  {
    assert forall d :: IsCompleted(UnblockAll(rows, freed, now), d) <==> IsCompleted(rows, d);
  }

  lemma UnblockOneMore(t: Table, dep: TaskId, freed: set<TaskId>, now: Time, id: TaskId)
    requires Sound(t) && freed <= Ready(t.rows, dep) && id in Ready(t.rows, dep)
    ensures id in UnblockAll(t.rows, freed, now)
    ensures Unblock(UnblockAll(t.rows, freed, now), id, now) == UnblockAll(t.rows, freed + {id}, now)
    ensures Sound(t.(rows := UnblockAll(t.rows, freed + {id}, now)))
  {
    EvolvingKeepsSound(t, UnblockAll(t.rows, freed + {id}, now));
  }

  lemma AllVisited(list: seq<TaskId>, waiting: set<TaskId>, ready: set<TaskId>, freed: set<TaskId>)
    requires (forall id :: id in list <==> id in waiting) && freed <= ready <= waiting
    requires forall j :: 0 <= j < |list| && list[j] in ready ==> list[j] in freed
    ensures freed == ready
  {
    forall id | id in ready
      ensures id in freed
    {
      assert id in list;
    }
  }

  /** The first UPDATE of a lease sweep: expired claims with no retry left fail. */
  function FailExpired(t: Task, now: Time): Task
  {
    if Expired(t, now) && OutOfRetries(t)
    then Requeued(t, now).(state := Failed, failureReason := Some("max_retries_exceeded")) else t
  }

  /** The second: expired claims with a retry left return to pending. */
  function ReturnExpired(t: Task, now: Time): Task
  {
    if Expired(t, now) && !OutOfRetries(t) then Requeued(t, now) else t
  }

  /** Neither statement touches a row of the other, so together they treat each expired claim once. */
  lemma SweepInTwo(before: Rows, between: Rows, now: Time)
    requires between == map id | id in before :: FailExpired(before[id], now)
    ensures (map id | id in between :: ReturnExpired(between[id], now)) == SweepLeases(before, now)
    ensures Returning(between, now) == Returning(before, now)
  {
    assert forall id :: id in before ==> ReturnExpired(between[id], now) == Swept(before[id], now);
  }

  function Failing(rows: Rows, now: Time): set<TaskId>
  {
    set id | id in rows && Expired(rows[id], now) && OutOfRetries(rows[id])
  }

  function Returning(rows: Rows, now: Time): set<TaskId>
  {
    set id | id in rows && Expired(rows[id], now) && !OutOfRetries(rows[id])
  }

  function ExpiredClaims(rows: Rows, now: Time): set<TaskId>
  {
    set id | id in rows && Expired(rows[id], now)
  }

  lemma EachExpiredClaimOnce(rows: Rows, now: Time)
    ensures Failing(rows, now) !! Returning(rows, now)
    ensures |Failing(rows, now)| + |Returning(rows, now)| == |ExpiredClaims(rows, now)|
  {
    assert Failing(rows, now) + Returning(rows, now) == ExpiredClaims(rows, now);
  }

  lemma SweepKeepsSound(t: Table, now: Time)
    requires Sound(t)
    ensures Sound(t.(rows := SweepLeases(t.rows, now)))
    ensures forall id :: id in SweepLeases(t.rows, now) ==> !Expired(SweepLeases(t.rows, now)[id], now)
  {
  }

  lemma FailingKeepsSound(t: Table, dep: TaskId, now: Time)
    requires Sound(t)
    ensures Sound(t.(rows := FailAll(t.rows, Waiting(t.rows, dep), now)))
  {
  }

  function Elements(ids: seq<TaskId>): set<TaskId>
  {
    set id | id in ids
  }

  lemma SameMembers(list: seq<TaskId>, ids: set<TaskId>)
    requires forall id :: id in list <==> id in ids
    ensures Elements(list) == ids
  {
    assert forall id :: id in Elements(list) <==> id in ids;
  }

  /** Reads a query's rows into a list, in whatever order they come. */
  method Collect(ids: set<TaskId>) returns (list: seq<TaskId>)
    ensures forall id :: id in list <==> id in ids
    ensures |list| == |ids|
  {
    list := [];
    var left := ids;
    while left != {}
      invariant left <= ids
      invariant forall id :: id in list <==> id in ids - left
      invariant |list| + |left| == |ids|
      decreases |left|
    {
      SomeMember(left);
      var id :| id in left;
      list := list + [id];
      left := left - {id};
    }
  }

  lemma ClaimKeepsSound(t: Table, f: ClaimFilter, id: TaskId, worker: string, token: Token, now: Time)
    requires Sound(t) && Selected(t.rows, f, id)
    ensures Sound(t.(rows := ClaimRow(t.rows, id, worker, token, now))) && AllCompleted(t.rows, t.rows[id].dependsOn)
  {
    EvolvingKeepsSound(t, ClaimRow(t.rows, id, worker, token, now));
  }

  class Store {
    var table: Table

    ghost predicate Valid()
      reads this
    {
      Sound(table)
    }

    constructor ()
      ensures Valid() && table == EMPTY
    {
      table := EMPTY;
    }

    /** An idempotency key already in the table returns its task and inserts nothing. */
    method Create(p: CreateParams, now: Time) returns (r: Result<TaskId, StoreError>)
      requires Valid()
      modifies this
      ensures Valid()
      ensures (p.key != "" && exists id :: id in old(table).rows && old(table).rows[id].key == Some(p.key)) ==>
                table == old(table) && r.Ok? && r.value in table.rows && table.rows[r.value].key == Some(p.key)
      ensures !(p.key != "" && exists id :: id in old(table).rows && old(table).rows[id].key == Some(p.key)) ==>
                if p.ttl < 0 then table == old(table) && r == Err(TtlNegative)
                else if p.ttl > 86400 then table == old(table) && r == Err(TtlTooLong)
                else
                  && table == Insert(old(table), p, now)
                  && r == Ok(old(table).lastId + 1) && r.value !in old(table).rows && table.lastId == r.value
                  && table.rows == old(table).rows[r.value := Task(
                       if p.key == "" then None else Some(p.key), p.kind, p.tags, p.payload, p.priority,
                       State.Pending, p.dependsOn != [], p.dependsOn, None, None, None, None,
                       if p.leaseDuration == 0 then 300 else p.leaseDuration,
                       if p.maxRetries == 0 then 3 else p.maxRetries,
                       0, if p.ttl == 0 then None else Some(p.ttl), None, None, now, now)]
    {
      if p.key != "" && exists id :: id in table.rows && table.rows[id].key == Some(p.key) {
        var id :| id in table.rows && table.rows[id].key == Some(p.key);
        return Ok(id);
      }
      if p.ttl < 0 {
        return Err(TtlNegative);
      }
      if p.ttl > MAX_TASK_TTL {
        return Err(TtlTooLong);
      }
      assert TtlAccepted(p) && !HasKey(table.rows, p.key);
      InsertKeepsSound(table, p, now);
      var id := table.lastId + 1;
      table := Table(table.rows[id := NewTask(p, now)], id);
      return Ok(id);
    }

    /** A row read between statements: its claim columns match its state, and if it is no longer blocked,
      * all its dependencies have completed. */
    method Get(id: TaskId) returns (r: Result<Task, StoreError>)
      requires Valid()
      ensures r.Err? ==> r.error == NotFound && id !in table.rows
      ensures r.Ok? ==> id in table.rows && r.value == table.rows[id] && ClaimColumns(r.value)
      ensures r.Ok? && (!r.value.blocked || r.value.state in {State.Claimed, State.Completed}) ==>
                AllCompleted(table.rows, r.value.dependsOn)
    {
      if id !in table.rows {
        return Err(NotFound);
      }
      return Ok(table.rows[id]);
    }

    /** The SELECT of a claim; none only when no row is eligible. */
    method SelectRow(f: ClaimFilter) returns (r: Option<TaskId>)
      ensures r.None? <==> forall id :: id in table.rows ==> !Eligible(table.rows[id], f)
      ensures r.Some? ==> Selected(table.rows, f, r.value)
    {
      var rows := table.rows;
      var eligible := set id | id in rows && Eligible(rows[id], f);
      if eligible == {} {
        assert forall id :: id in rows && Eligible(rows[id], f) ==> id in eligible;
        return None;
      }
      ghost var best := BestRowExists(rows, f, eligible);
      assert best in eligible;
      var id :| id in eligible && forall o :: o in eligible ==> RanksBefore(rows[id], rows[o]);
      assert forall o :: o in rows && Eligible(rows[o], f) ==> o in eligible;
      return Some(id);
    }

    /** Claims the row that the SELECT returns; fails only when there is none. */
    method Claim(worker: string, f: ClaimFilter, token: Token, now: Time) returns (r: Result<TaskId, StoreError>)
      requires Valid()
      modifies this
      ensures Valid()
      ensures r.Err? ==> r.error == NoEligibleTasks && table == old(table)
      ensures r.Err? <==> forall id :: id in old(table).rows ==>
                            var t := old(table).rows[id];
                            !(t.state == State.Pending && !t.blocked && (f.kind != "" ==> t.kind == f.kind)
                              && forall tag :: tag in f.tags ==> tag in t.tags)
      ensures r.Ok? ==>
                && r.value in old(table).rows
                && var c := old(table).rows[r.value];
                && c.state == State.Pending && !c.blocked && (f.kind != "" ==> c.kind == f.kind)
                && (forall tag :: tag in f.tags ==> tag in c.tags)
                && forall id :: id in old(table).rows ==>
                     var t := old(table).rows[id];
                     (t.state == State.Pending && !t.blocked && (f.kind != "" ==> t.kind == f.kind)
                      && forall tag :: tag in f.tags ==> tag in t.tags) ==>
                       t.priority <= c.priority && (t.priority == c.priority ==> c.createdAt <= t.createdAt)
      ensures r.Ok? ==> Selected(old(table).rows, f, r.value)
                        && AllCompleted(old(table).rows, old(table).rows[r.value].dependsOn)
                        && table == old(table).(rows := ClaimRow(old(table).rows, r.value, worker, token, now))
      ensures r.Ok? ==> table.rows == old(table).rows[r.value := old(table).rows[r.value].(
                                        state := State.Claimed, claimToken := Some(token), claimedBy := Some(worker),
                                        claimedAt := Some(now), leaseExpiresAt := Some(now + 300), updatedAt := now)]
    {
      var selected := SelectRow(f);
      if selected.None? {
        return Err(NoEligibleTasks);
      }
      var id := selected.value;
      ClaimKeepsSound(table, f, id, worker, token, now);
      var t := table.rows[id].(state := State.Claimed, claimToken := Some(token), claimedBy := Some(worker), claimedAt := Some(now));
      table := table.(rows := table.rows[id := t.(leaseExpiresAt := Some(now + LEASE_SECONDS), updatedAt := now)]);
      return Ok(id);
    }

    method Complete(id: TaskId, token: Token, res: string, now: Time) returns (r: Result<(), StoreError>)
      requires Valid()
      modifies this
      ensures Valid()
      ensures r.Ok? <==> id in old(table).rows && old(table).rows[id].claimToken == Some(token)
                         && old(table).rows[id].state == State.Claimed
      ensures table == if r.Ok? then old(table).(rows := CompleteRow(old(table).rows, id, res, now)) else old(table)
      ensures r.Ok? ==> table.rows == old(table).rows[id := old(table).rows[id].(state := State.Completed, result := Some(res), updatedAt := now)]
    {
      if !(id in table.rows && table.rows[id].claimToken == Some(token) && table.rows[id].state == Claimed) {
        return Err(InvalidClaim);
      }
      EvolvingKeepsSound(table, CompleteRow(table.rows, id, res, now));
      table := table.(rows := CompleteRow(table.rows, id, res, now));
      return Ok(());
    }

    method Fail(id: TaskId, token: Token, reason: string, now: Time) returns (r: Result<(), StoreError>)
      requires Valid()
      modifies this
      ensures Valid()
      ensures r.Ok? <==> id in old(table).rows && old(table).rows[id].claimToken == Some(token)
                         && old(table).rows[id].state == State.Claimed
      ensures table == if r.Ok? then old(table).(rows := FailRow(old(table).rows, id, reason, now)) else old(table)
      ensures r.Ok? ==> table.rows == old(table).rows[id := old(table).rows[id].(state := State.Failed, failureReason := Some(reason), updatedAt := now)]
    {
      if !(id in table.rows && table.rows[id].claimToken == Some(token) && table.rows[id].state == Claimed) {
        return Err(InvalidClaim);
      }
      EvolvingKeepsSound(table, FailRow(table.rows, id, reason, now));
      table := table.(rows := FailRow(table.rows, id, reason, now));
      return Ok(());
    }

    method Cancel(id: TaskId, now: Time) returns (r: Result<(), StoreError>)
      requires Valid()
      modifies this
      ensures Valid()
      ensures r.Ok? <==> id in old(table).rows && old(table).rows[id].state in {State.Pending, State.Claimed}
      ensures table == if r.Ok? then old(table).(rows := CancelRow(old(table).rows, id, now)) else old(table)
      ensures r.Ok? ==> table.rows == old(table).rows[id := old(table).rows[id].(state := State.Canceled, updatedAt := now)]
    {
      if !(id in table.rows && table.rows[id].state in {Pending, Claimed}) {
        return Err(NotCancelable);
      }
      EvolvingKeepsSound(table, CancelRow(table.rows, id, now));
      table := table.(rows := CancelRow(table.rows, id, now));
      return Ok(());
    }

    method Heartbeat(id: TaskId, token: Token, now: Time) returns (r: Result<(), StoreError>)
      requires Valid()
      modifies this
      ensures Valid()
      ensures r.Ok? <==> id in old(table).rows && old(table).rows[id].claimToken == Some(token)
                         && old(table).rows[id].state == State.Claimed
      ensures table == if r.Ok? then old(table).(rows := ExtendLease(old(table).rows, id, now)) else old(table)
      ensures r.Ok? ==> forall t :: t <= now + LEASE_SECONDS ==> !Expired(table.rows[id], t)
      ensures r.Ok? ==> table.rows == old(table).rows[id := old(table).rows[id].(leaseExpiresAt := Some(now + 300), updatedAt := now)]
    {
      if !(id in table.rows && table.rows[id].claimToken == Some(token) && table.rows[id].state == Claimed) {
        return Err(InvalidClaim);
      }
      EvolvingKeepsSound(table, ExtendLease(table.rows, id, now));
      table := table.(rows := ExtendLease(table.rows, id, now));
      return Ok(());
    }

    method CancelExpiredTTL(now: Time) returns (count: nat)
      requires Valid()
      modifies this
      ensures Valid()
      ensures table == old(table).(rows := ExpireTtl(old(table).rows, now))
      ensures count == |set id | id in old(table).rows && TtlDue(old(table).rows[id], now)|
      ensures table.rows.Keys == old(table).rows.Keys
      ensures forall id :: id in old(table).rows ==>
                var t := old(table).rows[id];
                table.rows[id] ==
                if t.state == State.Pending && !t.blocked && t.ttl.Some? && now >= t.createdAt + t.ttl.value
                then t.(state := State.Canceled, failureReason := Some("ttl_expired"), updatedAt := now) else t
    {
      var due := set id | id in table.rows && TtlDue(table.rows[id], now);
      EvolvingKeepsSound(table, ExpireTtl(table.rows, now));
      table := table.(rows := ExpireTtl(table.rows, now));
      return |due|;
    }

    method RequeueAllClaimed(now: Time) returns (count: nat)
      requires Valid()
      modifies this
      ensures Valid()
      ensures table == old(table).(rows := RequeueClaims(old(table).rows, now))
      ensures count == |set id | id in old(table).rows && old(table).rows[id].state == Claimed|
      ensures forall id :: id in table.rows ==> table.rows[id].state != Claimed
      ensures table.rows.Keys == old(table).rows.Keys
      ensures forall id :: id in old(table).rows ==>
                var t := old(table).rows[id];
                table.rows[id] ==
                if t.state == State.Claimed
                then t.(state := State.Pending, claimedBy := None, claimToken := None, claimedAt := None,
                         leaseExpiresAt := None, retryCount := t.retryCount + 1, updatedAt := now)
                else t
    {
      var claimed := set id | id in table.rows && table.rows[id].state == Claimed;
      EvolvingKeepsSound(table, RequeueClaims(table.rows, now));
      table := table.(rows := RequeueClaims(table.rows, now));
      return |claimed|;
    }

    method RequeueByOwner(owner: string, now: Time) returns (count: nat)
      requires Valid()
      modifies this
      ensures Valid()
      ensures table == old(table).(rows := RequeueOwner(old(table).rows, owner, now))
      ensures count == |set id | id in old(table).rows && OwnedBy(old(table).rows[id], owner)|
      ensures forall id :: id in table.rows ==> !OwnedBy(table.rows[id], owner)
      ensures table.rows.Keys == old(table).rows.Keys
      ensures forall id :: id in old(table).rows ==>
                var t := old(table).rows[id];
                table.rows[id] ==
                if t.state == State.Claimed && t.claimedBy == Some(owner)
                then t.(state := State.Pending, claimedBy := None, claimToken := None, claimedAt := None,
                         leaseExpiresAt := None, retryCount := t.retryCount + 1, updatedAt := now)
                else t
    {
      var owned := set id | id in table.rows && OwnedBy(table.rows[id], owner);
      EvolvingKeepsSound(table, RequeueOwner(table.rows, owner, now));
      table := table.(rows := RequeueOwner(table.rows, owner, now));
      return |owned|;
    }

    /** Two UPDATE statements, fail first and requeue second. Together they treat every expired claim
      * exactly once, and the number returned is the number of expired claims. */
    method RequeueExpiredLeases(now: Time) returns (total: nat)
      requires Valid()
      modifies this
      ensures Valid()
      ensures table == old(table).(rows := SweepLeases(old(table).rows, now))
      ensures total == |ExpiredClaims(old(table).rows, now)|
      ensures forall id :: id in table.rows ==> !Expired(table.rows[id], now)
      ensures table.rows.Keys == old(table).rows.Keys
      ensures forall id :: id in old(table).rows ==>
                var t := old(table).rows[id];
                table.rows[id] ==
                if t.state == State.Claimed && t.leaseExpiresAt.Some? && t.leaseExpiresAt.value < now
                then t.(state := if t.retryCount + 1 >= t.maxRetries then State.Failed else State.Pending,
                        failureReason := if t.retryCount + 1 >= t.maxRetries then Some("max_retries_exceeded")
                                         else t.failureReason,
                        claimedBy := None, claimToken := None, claimedAt := None, leaseExpiresAt := None,
                        retryCount := t.retryCount + 1, updatedAt := now)
                else t
    {
      var before := table.rows;
      var between := map id | id in before :: FailExpired(before[id], now);
      total := |Failing(before, now)|;
      var after := map id | id in between :: ReturnExpired(between[id], now);
      total := total + |Returning(between, now)|;
      SweepInTwo(before, between, now);
      EachExpiredClaimOnce(before, now);
      SweepKeepsSound(table, now);
      table := table.(rows := after);
    }

    method Update(id: TaskId, priority: Option<int>, tags: Option<seq<string>>, now: Time) returns (r: Result<(), StoreError>)
      requires Valid()
      modifies this
      ensures Valid()
      ensures r == if priority.None? && tags.None? then Err(NoFields)
                   else if id !in old(table).rows then Err(NotFound) else Ok(())
      ensures table == if r.Ok? then old(table).(rows := SetPriorityAndTags(old(table).rows, id, priority, tags, now)) else old(table)
      ensures r.Ok? ==> table.rows == old(table).rows[id := old(table).rows[id].(
                                        priority := if priority.Some? then priority.value else old(table).rows[id].priority,
                                        tags := if tags.Some? then tags.value else old(table).rows[id].tags,
                                        updatedAt := now)]
    {
      if priority.None? && tags.None? {
        return Err(NoFields);
      }
      if id !in table.rows {
        return Err(NotFound);
      }
      EvolvingKeepsSound(table, SetPriorityAndTags(table.rows, id, priority, tags, now));
      table := table.(rows := SetPriorityAndTags(table.rows, id, priority, tags, now));
      return Ok(());
    }

    /** The inner loop of ResolveDeps: whether all of `deps` have completed, read one by one up to the first
      * that has not; a missing one read before that ends the call. */
    method CheckDeps(deps: seq<TaskId>) returns (r: Result<bool, TaskId>)
      requires Valid()
      ensures r.Ok? ==> (r.value <==> AllCompleted(table.rows, deps))
      ensures r.Err? ==> r.error in deps && r.error !in table.rows
    {
      for j := 0 to |deps|
        invariant forall m :: 0 <= m < j ==> IsCompleted(table.rows, deps[m])
      {
        var dep := Get(deps[j]);
        if dep.Err? {
          return Err(deps[j]);
        }
        if dep.value.state != State.Completed {
          assert !IsCompleted(table.rows, deps[j]);
          return Ok(false);
        }
      }
      return Ok(true);
    }

    /** With no other statement in between: exactly the waiting tasks whose dependencies have all
      * completed are unblocked and reported. A missing dependency stops the call with part of the
      * ready tasks unblocked, and never any other. */
    method ResolveDeps(dep: TaskId, now: Time) returns (r: Result<seq<TaskId>, TaskId>, ghost freed: set<TaskId>)
      requires Valid()
      modifies this
      ensures Valid()
      ensures freed <= Ready(old(table).rows, dep)
      ensures table == old(table).(rows := UnblockAll(old(table).rows, freed, now))
      ensures r.Ok? ==> freed == Ready(old(table).rows, dep) && (forall id :: id in r.value <==> id in freed)
      ensures r.Err? ==> r.error !in old(table).rows
                         && exists id :: id in Waiting(old(table).rows, dep) && r.error in old(table).rows[id].dependsOn
      ensures table.rows.Keys == old(table).rows.Keys
      ensures forall id :: r.Ok? && id in old(table).rows ==>
                var t := old(table).rows[id];
                table.rows[id] ==
                if t.state == State.Pending && t.blocked && dep in t.dependsOn
                   && forall d :: d in t.dependsOn ==> d in old(table).rows && old(table).rows[d].state == State.Completed
                then t.(blocked := false, updatedAt := now) else t
    {
      ghost var before := table;
      freed := {};
      var candidates := Collect(Waiting(table.rows, dep));
      assert UnblockAll(before.rows, {}, now) == before.rows;
      var unblocked: seq<TaskId> := [];
      for i := 0 to |candidates|
        invariant Valid() && table == before.(rows := UnblockAll(before.rows, freed, now))
        invariant freed <= Ready(before.rows, dep)
        invariant forall id :: id in unblocked <==> id in freed
        invariant forall j :: 0 <= j < i && candidates[j] in Ready(before.rows, dep) ==> candidates[j] in freed
      {
        var id := candidates[i];
        assert id in Waiting(before.rows, dep);
        UnblockingCompletesNothing(before.rows, freed, now, id);
        var allCompleted := CheckDeps(table.rows[id].dependsOn);
        if allCompleted.Err? {
          return Err(allCompleted.error), freed;
        }
        if allCompleted.value {
          UnblockOneMore(before, dep, freed, now, id);
          freed := freed + {id};
          table := table.(rows := Unblock(table.rows, id, now));
          unblocked := unblocked + [id];
        }
      }
      AllVisited(candidates, Waiting(before.rows, dep), Ready(before.rows, dep), freed);
      return Ok(unblocked), freed;
    }

    /** With no other statement in between: exactly the waiting tasks are failed and reported. */
    method FailDependents(dep: TaskId, now: Time) returns (failed: seq<TaskId>)
      requires Valid()
      modifies this
      ensures Valid()
      ensures table == old(table).(rows := FailAll(old(table).rows, Waiting(old(table).rows, dep), now))
      ensures forall id :: id in failed <==> id in Waiting(old(table).rows, dep)
      ensures table.rows.Keys == old(table).rows.Keys
      ensures forall id :: id in old(table).rows ==>
                var t := old(table).rows[id];
                table.rows[id] ==
                if t.state == State.Pending && t.blocked && dep in t.dependsOn
                then t.(state := State.Failed, failureReason := Some("dependency_failed"), updatedAt := now) else t
    {
      ghost var before := table.rows;
      failed := Collect(Waiting(table.rows, dep));
      FailingKeepsSound(table, dep, now);
      assert FailAll(before, Elements(failed[..0]), now) == before;
      for i := 0 to |failed|
        invariant table == old(table).(rows := FailAll(before, Elements(failed[..i]), now))
      {
        var id := failed[i];
        assert id in Waiting(before, dep);
        assert Elements(failed[..i + 1]) == Elements(failed[..i]) + {id};
        assert FailDependency(table.rows, id, now) == FailAll(before, Elements(failed[..i + 1]), now);
        table := table.(rows := FailDependency(table.rows, id, now));
      }
      assert failed[..|failed|] == failed;
      SameMembers(failed, Waiting(before, dep));
    }
  }
}
