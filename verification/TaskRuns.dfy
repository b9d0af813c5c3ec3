/** Every interleaving of the task handlers.
  *
  * Each store call is one atomic step. `handleTaskComplete` and `handleTaskFail` are several: the
  * store call, the dependency query, and then, one at a time, the reads and writes of the loop over
  * the rows that query returned. Between any two of them any other step may run, including a
  * restart, which drops every handler in progress and requeues all claims. */
module TaskRuns {
  import opened Wrappers
  import opened TaskTable

  /** One row returned by the query of ResolveDeps. */
  datatype Candidate = Candidate(id: TaskId, deps: seq<TaskId>)

  /** A handler between two of its steps. */
  datatype Handler =
    | ResolveStart(dep: TaskId)                                         // completed, query not yet run
    | Resolving(dep: TaskId, todo: seq<Candidate>, checked: nat)        // first `checked` deps of todo[0] were read
    | FailStart(dep: TaskId)                                            // failed, query not yet run
    | Failing(dep: TaskId, ids: seq<TaskId>)                            // rows still to be failed

  datatype Event = DidClaim(id: TaskId, token: Token) | DidComplete(id: TaskId)

  /** The table, the handlers in progress, and the history of the run so far:
    * `log` the claims and completions in order, `issued` the claim tokens drawn, `expiries` how often
    * lease expiry sent each task back to pending, `awaiting` the tasks that were not created too late to
    * be resolved, `lost` the completed ids whose ResolveDeps was cut short. */
  datatype Sys = Sys(
    table: Table, handlers: map<int, Handler>,
    log: seq<Event>, issued: set<Token>, expiries: map<TaskId, nat>, awaiting: set<TaskId>, lost: set<TaskId>)

  datatype Action =
    | Create(p: CreateParams, now: Time)
    | Claim(worker: string, filter: ClaimFilter, id: TaskId, token: Token, now: Time)
    | Complete(h: int, id: TaskId, token: Token, res: string, now: Time)
    | ResolveQuery(h: int, found: seq<Candidate>)
    | ResolveRead(h: int)
    | ResolveWrite(h: int, now: Time)
    | Fail(h: int, id: TaskId, token: Token, reason: string, now: Time)
    | FailQuery(h: int, ids: seq<TaskId>)
    | FailWrite(h: int, now: Time)
    | Return(h: int)
    | Cancel(id: TaskId, now: Time)
    | Heartbeat(id: TaskId, token: Token, now: Time)
    | Update(id: TaskId, priority: Option<int>, tags: Option<seq<string>>, now: Time)
    | ExpireTasks(now: Time)
    | Disconnect(owner: string, now: Time)
    | LeaseSweep(now: Time)
    | Restart(now: Time)

  const INITIAL: Sys := Sys(EMPTY, map[], [], {}, map[], {}, {})

  /** `found` lists, in some order and without repetition, exactly the rows waiting on `dep`. */
  ghost predicate QueryAnswer(rows: Rows, dep: TaskId, found: seq<Candidate>)
  {
    && (forall c :: c in found ==> c.id in rows && WaitsOn(rows[c.id], dep) && c.deps == rows[c.id].dependsOn)
    && (forall id :: id in rows && WaitsOn(rows[id], dep) ==> Candidate(id, rows[id].dependsOn) in found)
    && (forall i, j :: 0 <= i < j < |found| ==> found[i].id != found[j].id)
  }

  /** When an action may happen. Store calls that the guard of their UPDATE turns away are no steps. */
  ghost predicate Enabled(s: Sys, a: Action)
  {
    var rows := s.table.rows;
    match a
    case Create(p, _) => TtlAccepted(p) && !HasKey(rows, p.key)
    case Claim(_, filter, id, token, _) => Selected(rows, filter, id) && token !in s.issued
    case Complete(h, id, token, _, _) => h !in s.handlers && HoldsClaim(rows, id, token)
    case ResolveQuery(h, found) =>
      h in s.handlers && s.handlers[h].ResolveStart? && QueryAnswer(rows, s.handlers[h].dep, found)
    case ResolveRead(h) =>
      && h in s.handlers && s.handlers[h].Resolving? && s.handlers[h].todo != []
      && s.handlers[h].checked < |s.handlers[h].todo[0].deps|
    case ResolveWrite(h, _) =>
      && h in s.handlers && s.handlers[h].Resolving? && s.handlers[h].todo != []
      && s.handlers[h].checked == |s.handlers[h].todo[0].deps|
      && s.handlers[h].todo[0].id in rows
    case Fail(h, id, token, _, _) => h !in s.handlers && HoldsClaim(rows, id, token)
    case FailQuery(h, ids) =>
      && h in s.handlers && s.handlers[h].FailStart?
      && (forall id :: id in ids <==> id in rows && WaitsOn(rows[id], s.handlers[h].dep))
    case FailWrite(h, _) =>
      && h in s.handlers && s.handlers[h].Failing? && s.handlers[h].ids != []
      && s.handlers[h].ids[0] in rows
    case Return(h) =>
      && h in s.handlers
      && (s.handlers[h] == Resolving(s.handlers[h].dep, [], 0) || s.handlers[h] == Failing(s.handlers[h].dep, []))
    case Cancel(id, _) => Cancelable(rows, id)
    case Heartbeat(id, token, _) => HoldsClaim(rows, id, token)
    case Update(id, _, _, _) => id in rows
    case ExpireTasks(_) => true
    case Disconnect(_, _) => true
    case LeaseSweep(_) => true
    case Restart(_) => true
  }

  /** The table after an action: one SQL statement, or one sweep. */
  ghost function NextRows(s: Sys, a: Action): Rows
    requires Enabled(s, a)
  {
    var rows := s.table.rows;
    match a
    case Create(p, now) => Insert(s.table, p, now).rows
    case Claim(worker, _, id, token, now) => ClaimRow(rows, id, worker, token, now)
    case Complete(_, id, _, res, now) => CompleteRow(rows, id, res, now)
    case ResolveWrite(h, now) => Unblock(rows, s.handlers[h].todo[0].id, now)
    case Fail(_, id, _, reason, now) => FailRow(rows, id, reason, now)
    case FailWrite(h, now) => FailDependency(rows, s.handlers[h].ids[0], now)
    case Cancel(id, now) => CancelRow(rows, id, now)
    case Heartbeat(id, _, now) => ExtendLease(rows, id, now)
    case Update(id, priority, tags, now) => SetPriorityAndTags(rows, id, priority, tags, now)
    case ExpireTasks(now) => ExpireTtl(rows, now)
    case Disconnect(owner, now) => RequeueOwner(rows, owner, now)
    case LeaseSweep(now) => SweepLeases(rows, now)
    case Restart(now) => RequeueClaims(rows, now)
    case _ => rows
  }

  /** The dependency that a ResolveRead step reads. */
  function DepToRead(r: Handler): TaskId
    requires r.Resolving? && r.todo != [] && r.checked < |r.todo[0].deps|
  {
    r.todo[0].deps[r.checked]
  }

  /** The handlers after an action. A dependency that is missing ends ResolveDeps with an error, one
    * that has not completed ends the work on its candidate. */
  ghost function NextHandlers(s: Sys, a: Action): map<int, Handler>
    requires Enabled(s, a)
  {
    match a
    case Complete(h, id, _, _, _) => s.handlers[h := ResolveStart(id)]
    case ResolveQuery(h, found) => s.handlers[h := Resolving(s.handlers[h].dep, found, 0)]
    case ResolveRead(h) =>
      var r := s.handlers[h];
      if DepToRead(r) !in s.table.rows then s.handlers - {h}
      else if s.table.rows[DepToRead(r)].state != Completed then s.handlers[h := Resolving(r.dep, r.todo[1..], 0)]
      else s.handlers[h := Resolving(r.dep, r.todo, r.checked + 1)]
    case ResolveWrite(h, _) => s.handlers[h := Resolving(s.handlers[h].dep, s.handlers[h].todo[1..], 0)]
    case Fail(h, id, _, _, _) => s.handlers[h := FailStart(id)]
    case FailQuery(h, ids) => s.handlers[h := Failing(s.handlers[h].dep, ids)]
    case FailWrite(h, _) => s.handlers[h := Failing(s.handlers[h].dep, s.handlers[h].ids[1..])]
    case Return(h) => s.handlers - {h}
    case Restart(_) => map[]
    case _ => s.handlers
  }

  /** The ids whose ResolveDeps ended before its list was done. */
  ghost function NextLost(s: Sys, a: Action): set<TaskId>
    requires Enabled(s, a)
  {
    match a
    case ResolveRead(h) => if DepToRead(s.handlers[h]) !in s.table.rows then s.lost + {s.handlers[h].dep} else s.lost
    case Restart(_) =>
      s.lost + set h | h in s.handlers && (s.handlers[h].ResolveStart? || s.handlers[h].Resolving?) :: s.handlers[h].dep
    case _ => s.lost
  }

  function CountExpiries(s: Sys, now: Time): map<TaskId, nat>
  {
    map id | id in s.table.rows ::
      (if id in s.expiries then s.expiries[id] else 0) +
      (if Expired(s.table.rows[id], now) && !OutOfRetries(s.table.rows[id]) then 1 else 0)
  }

  function NextExpiries(s: Sys, a: Action): map<TaskId, nat>
  {
    match a
    case Create(_, _) => s.expiries[s.table.lastId + 1 := 0]
    case LeaseSweep(now) => CountExpiries(s, now)
    case _ => s.expiries
  }

  /** Some completed dependency has yet to run the query of its ResolveDeps. */
  ghost predicate QueryToCome(s: Sys, deps: seq<TaskId>)
  {
    exists h :: h in s.handlers && s.handlers[h].ResolveStart? && s.handlers[h].dep in deps
  }

  /** A task created now on these dependencies would be found by no query: all have completed, and the
    * queries of their resolutions have run. */
  ghost predicate TooLate(s: Sys, deps: seq<TaskId>)
  {
    deps != [] && AllCompleted(s.table.rows, deps) && !QueryToCome(s, deps)
  }

  ghost function Apply(s: Sys, a: Action): Sys
    requires Enabled(s, a)
  {
    var newId := s.table.lastId + 1;
    Sys(Table(NextRows(s, a), if a.Create? then newId else s.table.lastId),
        NextHandlers(s, a),
        if a.Claim? then s.log + [DidClaim(a.id, a.token)]
        else if a.Complete? then s.log + [DidComplete(a.id)] else s.log,
        if a.Claim? then s.issued + {a.token} else s.issued,
        NextExpiries(s, a),
        if a.Create? && !TooLate(s, a.p.dependsOn) then s.awaiting + {newId} else s.awaiting,
        NextLost(s, a))
  }

  /** A run: states from the initial one, each the result of an enabled action on the one before. */
  ghost predicate Run(states: seq<Sys>, actions: seq<Action>)
  {
    && |states| == |actions| + 1
    && states[0] == INITIAL
    && forall i :: 0 <= i < |actions| ==> Enabled(states[i], actions[i]) && states[i + 1] == Apply(states[i], actions[i])
  }

  // ---------------------------------------------------------------- invariant

  ghost predicate ClaimedWithin(log: seq<Event>, id: TaskId)
  {
    exists e :: e in log && e.DidClaim? && e.id == id
  }

  /** No task completes twice, and none completes without having been claimed. */
  ghost predicate LogShape(log: seq<Event>)
  {
    && (forall j, k :: 0 <= j < k < |log| && log[j].DidComplete? ==> log[j] != log[k])
    && (forall k :: 0 <= k < |log| && log[k].DidComplete? ==> ClaimedWithin(log[..k], log[k].id))
  }

  /** Whenever a task is claimed or completes, each of its dependencies completed strictly earlier. */
  ghost predicate LogOrder(log: seq<Event>, rows: Rows)
  {
    && (forall k :: 0 <= k < |log| ==> log[k].id in rows)
    && (forall k, d :: 0 <= k < |log| && d in rows[log[k].id].dependsOn ==> DidComplete(d) in log[..k])
  }

  ghost predicate LogSound(s: Sys)
  {
    var rows := s.table.rows;
    && LogShape(s.log)
    && LogOrder(s.log, rows)
    && (forall id :: IsCompleted(rows, id) <==> DidComplete(id) in s.log)
    && (forall id :: id in rows && rows[id].state == Claimed ==>
                       rows[id].claimToken.Some? && DidClaim(id, rows[id].claimToken.value) in s.log)
  }

  predicate HandlerSound(rows: Rows, h: Handler)
  {
    match h
    case ResolveStart(dep) => IsCompleted(rows, dep)
    case Resolving(dep, todo, checked) =>
      && IsCompleted(rows, dep)
      && (forall c :: c in todo ==> c.id in rows && c.deps == rows[c.id].dependsOn && dep in c.deps)
      && (if todo == [] then checked == 0
          else checked <= |todo[0].deps| && AllCompleted(rows, todo[0].deps[..checked]))
    case FailStart(dep) => dep in rows && rows[dep].state == Failed
    case Failing(dep, ids) =>
      && dep in rows && rows[dep].state == Failed
      && (forall id :: id in ids ==> id in rows && dep in rows[id].dependsOn)
  }

  ghost predicate HandlersSound(s: Sys)
  {
    forall h :: h in s.handlers ==> HandlerSound(s.table.rows, s.handlers[h])
  }

  ghost predicate TokensSound(s: Sys)
  {
    var rows := s.table.rows;
    && (forall id :: id in rows && rows[id].claimToken.Some? ==> rows[id].claimToken.value in s.issued)
    && (forall i, j :: i in rows && j in rows && rows[i].claimToken.Some? && rows[i].claimToken == rows[j].claimToken ==> i == j)
  }

  function Max(a: int, b: int): int { if a > b then a else b }

  ghost predicate ExpiriesSound(s: Sys)
  {
    && s.expiries.Keys == s.table.rows.Keys
    && (forall id :: id in s.expiries ==>
                       && s.expiries[id] <= s.table.rows[id].retryCount
                       && s.expiries[id] <= Max(0, s.table.rows[id].maxRetries - 1))
  }

  /** The handler will still look at task `id`. */
  predicate WillVisit(h: Handler, id: TaskId, deps: seq<TaskId>)
  {
    || (h.ResolveStart? && h.dep in deps)
    || (h.Resolving? && Candidate(id, deps) in h.todo)
  }

  ghost predicate Visited(s: Sys, id: TaskId, deps: seq<TaskId>)
  {
    exists h :: h in s.handlers && WillVisit(s.handlers[h], id, deps)
  }

  /** A pending, blocked task whose dependencies are all completed. */
  predicate Overdue(rows: Rows, id: TaskId)
  {
    id in rows && rows[id].state == Pending && rows[id].blocked && AllCompleted(rows, rows[id].dependsOn)
  }

  /** An overdue task that was not created too late is on the list of some handler, or that handler was cut short. */
  ghost predicate WakeupsSound(s: Sys)
  {
    var rows := s.table.rows;
    && s.awaiting <= rows.Keys
    && (forall id :: id in s.awaiting && Overdue(rows, id) ==>
                       Visited(s, id, rows[id].dependsOn) || exists d :: d in rows[id].dependsOn && d in s.lost)
  }

  ghost predicate Inv(s: Sys)
  {
    && Sound(s.table)
    && LogSound(s)
    && HandlersSound(s)
    && TokensSound(s)
    && ExpiriesSound(s)
    && WakeupsSound(s)
  }
}
