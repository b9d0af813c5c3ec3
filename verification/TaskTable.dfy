/** The `tasks` table and the SQL statements that the task store runs on it.
  *
  * Rows are a map from task id to task; nullable columns are options. Every function here is one
  * statement (or, for the lease sweep, the pair of statements that make up one sweep), given as a
  * function of the table, so that the store class and the interleaving model share it. */
module TaskTable {
  import opened Wrappers

  type TaskId = int
  type Token = string
  /** Whole UTC seconds; `Timestamps.TextOrderIsTimeOrder` relates them to the stored text. */
  type Time = int

  const LEASE_SECONDS: int := 300
  const DEFAULT_MAX_RETRIES: int := 3
  const MAX_TASK_TTL: int := 86400

  datatype State = Pending | Claimed | Completed | Failed | Canceled

  datatype Task = Task(
    key: Option<string>, kind: string, tags: seq<string>, payload: string, priority: int,
    state: State, blocked: bool, dependsOn: seq<TaskId>,
    claimToken: Option<Token>, claimedBy: Option<string>, claimedAt: Option<Time>, leaseExpiresAt: Option<Time>,
    leaseDuration: int, maxRetries: int, retryCount: int, ttl: Option<int>,
    result: Option<string>, failureReason: Option<string>, createdAt: Time, updatedAt: Time)

  type Rows = map<TaskId, Task>

  /** `lastId` is the AUTOINCREMENT counter: ids are never reused. */
  datatype Table = Table(rows: Rows, lastId: TaskId)

  const EMPTY: Table := Table(map[], 0)

  datatype CreateParams = CreateParams(
    key: string, kind: string, tags: seq<string>, payload: string, priority: int,
    dependsOn: seq<TaskId>, leaseDuration: int, maxRetries: int, ttl: int)

  datatype ClaimFilter = ClaimFilter(kind: string, tags: seq<string>)

  // ---------------------------------------------------------------- statements

  predicate TtlAccepted(p: CreateParams) { 0 <= p.ttl <= MAX_TASK_TTL }

  predicate HasKey(rows: Rows, key: string)
  {
    key != "" && exists id :: id in rows && rows[id].key == Some(key)
  }

  function NewTask(p: CreateParams, now: Time): Task
  {
    Task(if p.key == "" then None else Some(p.key), p.kind, p.tags, p.payload, p.priority,
         Pending, p.dependsOn != [], p.dependsOn,
         None, None, None, None,
         if p.leaseDuration == 0 then LEASE_SECONDS else p.leaseDuration,
         if p.maxRetries == 0 then DEFAULT_MAX_RETRIES else p.maxRetries,
         0, if p.ttl == 0 then None else Some(p.ttl), None, None, now, now)
  }

  function Insert(t: Table, p: CreateParams, now: Time): Table
  {
    Table(t.rows[t.lastId + 1 := NewTask(p, now)], t.lastId + 1)
  }

  predicate Eligible(t: Task, f: ClaimFilter)
  {
    && t.state == Pending
    && !t.blocked
    && (f.kind != "" ==> t.kind == f.kind)
    && (forall tag :: tag in f.tags ==> tag in t.tags)
  }

  /** `a` may precede `b` under ORDER BY priority DESC, created_at ASC. */
  predicate RanksBefore(a: Task, b: Task)
  {
    a.priority > b.priority || (a.priority == b.priority && a.createdAt <= b.createdAt)
  }

  /** `id` is a row that the SELECT ... LIMIT 1 of a claim may return. */
  predicate Selected(rows: Rows, f: ClaimFilter, id: TaskId)
  {
    && id in rows
    && Eligible(rows[id], f)
    && forall o :: o in rows && Eligible(rows[o], f) ==> RanksBefore(rows[id], rows[o])
  }

  function ClaimRow(rows: Rows, id: TaskId, worker: string, token: Token, now: Time): Rows
    requires id in rows
  {
    rows[id := rows[id].(state := Claimed, claimToken := Some(token), claimedBy := Some(worker),
                         claimedAt := Some(now), leaseExpiresAt := Some(now + LEASE_SECONDS), updatedAt := now)]
  }

  /** The guard shared by Complete, Fail and Heartbeat. */
  predicate HoldsClaim(rows: Rows, id: TaskId, token: Token)
  {
    id in rows && rows[id].claimToken == Some(token) && rows[id].state == Claimed
  }

  function CompleteRow(rows: Rows, id: TaskId, res: string, now: Time): Rows
    requires id in rows
  {
    rows[id := rows[id].(state := Completed, result := Some(res), updatedAt := now)]
  }

  function FailRow(rows: Rows, id: TaskId, reason: string, now: Time): Rows
    requires id in rows
  {
    rows[id := rows[id].(state := Failed, failureReason := Some(reason), updatedAt := now)]
  }

  predicate Cancelable(rows: Rows, id: TaskId)
  {
    id in rows && (rows[id].state == Pending || rows[id].state == Claimed)
  }

  function CancelRow(rows: Rows, id: TaskId, now: Time): Rows
    requires id in rows
  {
    rows[id := rows[id].(state := Canceled, updatedAt := now)]
  }

  function ExtendLease(rows: Rows, id: TaskId, now: Time): Rows
    requires id in rows
  {
    rows[id := rows[id].(leaseExpiresAt := Some(now + LEASE_SECONDS), updatedAt := now)]
  }

  function SetPriorityAndTags(rows: Rows, id: TaskId, priority: Option<int>, tags: Option<seq<string>>, now: Time): Rows
    requires id in rows
  {
    var t := rows[id];
    rows[id := t.(priority := if priority.Some? then priority.value else t.priority,
                  tags := if tags.Some? then tags.value else t.tags, updatedAt := now)]
  }

  predicate TtlDue(t: Task, now: Time)
  {
    t.state == Pending && !t.blocked && t.ttl.Some? && now >= t.createdAt + t.ttl.value
  }

  function ExpireTtl(rows: Rows, now: Time): Rows
  {
    map id | id in rows ::
      if TtlDue(rows[id], now)
      then rows[id].(state := Canceled, failureReason := Some("ttl_expired"), updatedAt := now)
      else rows[id]
  }

  /** A claim taken away: back to pending with every claim column NULL and one more retry counted. */
  function Requeued(t: Task, now: Time): Task
  {
    t.(state := Pending, claimedBy := None, claimToken := None, claimedAt := None, leaseExpiresAt := None,
       retryCount := t.retryCount + 1, updatedAt := now)
  }

  function RequeueClaims(rows: Rows, now: Time): Rows
  {
    map id | id in rows :: if rows[id].state == Claimed then Requeued(rows[id], now) else rows[id]
  }

  predicate OwnedBy(t: Task, owner: string) { t.state == Claimed && t.claimedBy == Some(owner) }

  function RequeueOwner(rows: Rows, owner: string, now: Time): Rows
  {
    map id | id in rows :: if OwnedBy(rows[id], owner) then Requeued(rows[id], now) else rows[id]
  }

  predicate Expired(t: Task, now: Time)
  {
    t.state == Claimed && t.leaseExpiresAt.Some? && t.leaseExpiresAt.value < now
  }

  predicate OutOfRetries(t: Task) { t.retryCount + 1 >= t.maxRetries }

  /** What one lease sweep does to a row, both UPDATE statements taken together. */
  function Swept(t: Task, now: Time): Task
  {
    if !Expired(t, now) then t
    else if OutOfRetries(t) then
      Requeued(t, now).(state := Failed, failureReason := Some("max_retries_exceeded"))
    else Requeued(t, now)
  }

  function SweepLeases(rows: Rows, now: Time): Rows
  {
    map id | id in rows :: Swept(rows[id], now)
  }

  function Unblock(rows: Rows, id: TaskId, now: Time): Rows
    requires id in rows
  {
    rows[id := rows[id].(blocked := false, updatedAt := now)]
  }

  function FailDependency(rows: Rows, id: TaskId, now: Time): Rows
    requires id in rows
  {
    rows[id := rows[id].(state := Failed, failureReason := Some("dependency_failed"), updatedAt := now)]
  }

  /** The rows the dependency queries select: pending, blocked and listing `dep`. */
  predicate WaitsOn(t: Task, dep: TaskId)
  {
    t.state == Pending && t.blocked && dep in t.dependsOn
  }

  predicate IsCompleted(rows: Rows, id: TaskId)
  {
    id in rows && rows[id].state == Completed
  }

  predicate AllCompleted(rows: Rows, ids: seq<TaskId>)
  {
    forall d :: d in ids ==> IsCompleted(rows, d)
  }

  // ---------------------------------------------------------------- invariant

  /** Pending rows have every claim column NULL; claimed rows have every one set. */
  predicate ClaimColumns(t: Task)
  {
    && (t.state == Pending ==>
          t.claimToken.None? && t.claimedBy.None? && t.claimedAt.None? && t.leaseExpiresAt.None?)
    && (t.state == Claimed ==>
          t.claimToken.Some? && t.claimedBy.Some? && t.claimedAt.Some? && t.leaseExpiresAt.Some?)
  }

  /** What holds of the table in every state of every run. */
  ghost predicate Sound(t: Table)
  {
    && (forall id :: id in t.rows ==> 0 < id <= t.lastId)
    && 0 <= t.lastId
    && (forall id :: id in t.rows ==> ClaimColumns(t.rows[id]))
    && (forall id :: id in t.rows && t.rows[id].state in {Claimed, Completed} ==> !t.rows[id].blocked)
    && (forall id :: id in t.rows && !t.rows[id].blocked ==> AllCompleted(t.rows, t.rows[id].dependsOn))
  }

  /** The only state changes any statement makes. Completed and failed are absorbing; canceled can
    * only become failed, through the unguarded write of FailDependents. */
  predicate StateMove(a: State, b: State)
  {
    match a
    case Pending => b != Completed
    case Claimed => true
    case Completed => b == Completed
    case Failed => b == Failed
    case Canceled => b == Canceled || b == Failed
  }

  /** How a row may change in one statement. */
  predicate RowMove(t: Task, t': Task)
  {
    && t'.dependsOn == t.dependsOn
    && t'.maxRetries == t.maxRetries
    && t'.retryCount >= t.retryCount
    && (t'.blocked ==> t.blocked)
    && StateMove(t.state, t'.state)
    && (t'.state in {Claimed, Completed} ==> t.state in {Claimed, Completed} || !t.blocked)
    && (ClaimColumns(t) ==> ClaimColumns(t'))
  }

  ghost predicate Evolves(rows: Rows, rows': Rows)
  {
    forall id :: id in rows ==> id in rows' && RowMove(rows[id], rows'[id])
  }

  /** A statement that changes rows in place, keeping every flag or unblocking only finished rows. */
  lemma EvolvingKeepsSound(t: Table, rows': Rows)
    requires Sound(t) && Evolves(t.rows, rows') && rows'.Keys == t.rows.Keys
    requires forall id :: id in t.rows && t.rows[id].blocked && !rows'[id].blocked ==>
                            AllCompleted(t.rows, t.rows[id].dependsOn)
    ensures Sound(t.(rows := rows'))
  {
  }

  lemma InsertKeepsSound(t: Table, p: CreateParams, now: Time)
    requires Sound(t)
    ensures Sound(Insert(t, p, now))
    ensures Evolves(t.rows, Insert(t, p, now).rows)
  {
  }
}
