/** The runtime's delivery pipeline as interleaved steps: a worker per watch and one retry sweep share
  * the delivery records and the in-flight set, the reconciler starts and stops workers, and brokers and
  * other programs change the message tables underneath. A step is one critical section, one SQL
  * statement, or one exchange with a broker. */
module DeliveryRuns {
  import opened Wrappers
  import opened DeliveryTables

  /** A broker's row id: ids are per project. */
  datatype Letter = Letter(project: string, id: MsgId)

  /** One delivery being worked on, with the attempts its record had when it was read. */
  datatype Job = Job(key: Key, attempts: int)

  /** Where a routine returns after its release: to the listener, or to the loop over what is left. */
  datatype Kont = ToListener | ToLoop(rest: seq<Job>)

  datatype Pc =
    | Idle
    | Looping(todo: seq<Job>)
    | Adding(job: Job, k: Kont)
    | Reading(job: Job, k: Kont)
    | Notifying(job: Job, k: Kont)
    | Surfacing(job: Job, k: Kont)
    | Failing(job: Job, k: Kont)
    | Releasing(job: Job, k: Kont, ok: bool)
    | Acking(job: Job, k: Kont)

  datatype Role = Worker(watch: Watch) | Sweep

  datatype Routine = Routine(role: Role, pc: Pc)

  datatype Phase = Down | Up | Draining

  /** The reconcile goroutine: free for its next change, waiting for one stopped worker, waiting for all
    * of them at shutdown, or gone. */
  datatype Reconciler = Free | Awaiting(one: set<int>) | AwaitingAll(all: set<int>) | Ended

  /** `workers` is the manager's map from watch to worker, `routines` the goroutines still running, numbered
    * by `spawned`; `recorded` remembers every key ever inserted into `records`. */
  datatype Sys = Sys(
    mail: map<Letter, Message>, records: map<Key, Record>, recorded: set<Key>,
    phase: Phase, reconciler: Reconciler, workers: map<Watch, int>, routines: map<int, Routine>, spawned: int,
    inflight: set<Key>, now: Time)

  const INITIAL: Sys := Sys(map[], map[], {}, Down, Free, map[], map[], 0, {}, 0)

  /** How WriteSignal and MarkNotified went. */
  datatype Outcome = Marked | CapExceeded | NotNotified

  /** What one routine does next. */
  datatype Step =
    | Replay(ids: seq<MsgId>)
    | Batch(batch: seq<Job>)
    | Push(id: MsgId)
    | Next
    | Abort
    | Add(got: Delivery, ok: bool)
    | Read(found: bool)
    | Notify(outcome: Outcome)
    | Surfaced
    | Fail(stored: bool)
    | Release
    | AckReplayed(reached: bool, answered: bool)

  datatype Action =
    | Start
    | FailedStart
    | Cancel
    | StartWatch(w: Watch)
    | StopWatch(w: Watch)
    | StopAll
    | Stopped
    | Finish
    | Move(g: int, step: Step)
    | End(g: int)
    | Post(l: Letter, m: Message)
    | MarkPushed(l: Letter)
    | MarkSeen(l: Letter)
    | OtherAck(l: Letter)
    | MarkExpired
    | Prune(before: Time)
    | Surface(key: Key)
    | Dismiss(key: Key, surfacing: bool)
    | Tick(elapsed: nat)

  // ---------------------------------------------------------------- vocabulary

  predicate IsWorker(s: Sys, g: int) { g in s.routines && s.routines[g].role.Worker? }

  predicate IsSweep(s: Sys, g: int) { g in s.routines && s.routines[g].role.Sweep? }

  /** Between beginInflight and the deferred release. */
  predicate Inside(pc: Pc)
  {
    pc.Adding? || pc.Reading? || pc.Notifying? || pc.Surfacing? || pc.Failing? || pc.Releasing?
  }

  predicate HeldIn(pc: Pc, key: Key) { Inside(pc) && pc.job.key == key }

  predicate Holds(s: Sys, g: int, key: Key) { g in s.routines && HeldIn(s.routines[g].pc, key) }

  /** Inside notifyRecord for this key. */
  predicate InProgress(s: Sys, g: int, key: Key)
  {
    g in s.routines && (s.routines[g].pc.Notifying? || s.routines[g].pc.Surfacing?) && s.routines[g].pc.job.key == key
  }

  function Awaited(s: Sys): set<int>
  {
    match s.reconciler
    case Awaiting(gs) => gs
    case AwaitingAll(gs) => gs
    case _ => {}
  }

  predicate Canceled(s: Sys, g: int)
  {
    s.phase.Draining?
    || (IsWorker(s, g) && !(s.routines[g].role.watch in s.workers && s.workers[s.routines[g].role.watch] == g))
  }

  function LetterOf(key: Key): Letter { Letter(key.watch.project, key.id) }

  function KeyOf(l: Letter, m: Message): Key { Key(Watch(l.project, m.to), l.id) }

  /** The broker accepts an ack of this message from this watch's agent. */
  predicate Acceptable(s: Sys, key: Key) { LetterOf(key) in s.mail && s.mail[LetterOf(key)].to == key.watch.agent }

  predicate InReplay(s: Sys, w: Watch, id: MsgId)
  {
    Letter(w.project, id) in s.mail && s.mail[Letter(w.project, id)].to == w.agent
    && Replayable(s.mail[Letter(w.project, id)], s.now)
  }

  /** `ids` is the answer to a replay request: every replayable message once, in id order. */
  predicate ReplayAnswer(s: Sys, w: Watch, ids: seq<MsgId>)
  {
    && (forall i, j :: 0 <= i < j < |ids| ==> ids[i] < ids[j])
    && (forall id :: id in ids ==> InReplay(s, w, id))
    && (forall l :: l in s.mail && l.project == w.project && InReplay(s, w, l.id) ==> l.id in ids)
  }

  /** `batch` is what the sweep's query may return, with the attempts it read. */
  predicate SweepBatch(s: Sys, batch: seq<Job>)
  {
    && |batch| <= RETRY_BATCH
    && (forall i, j :: 0 <= i < j < |batch| ==> batch[i].key != batch[j].key)
    && (forall job :: job in batch ==> job.key in s.records && DueForRetry(s.records[job.key], s.now)
                                       && s.records[job.key].attempts == job.attempts)
    && (|batch| < RETRY_BATCH ==>
          forall key :: key in s.records && DueForRetry(s.records[key], s.now) ==> Job(key, s.records[key].attempts) in batch)
  }

  function Jobs(w: Watch, ids: seq<MsgId>): seq<Job> { seq(|ids|, i requires 0 <= i < |ids| => Job(Key(w, ids[i]), 0)) }

  // ---------------------------------------------------------------- steps

  /** The routine is where this step of it begins. */
  predicate Ready(s: Sys, g: int, step: Step)
    requires g in s.routines
  {
    var role, pc := s.routines[g].role, s.routines[g].pc;
    match step
    case Replay(ids) => pc.Idle? && role.Worker? && ReplayAnswer(s, role.watch, ids)
    case Batch(batch) => pc.Idle? && role.Sweep? && SweepBatch(s, batch)
    case Push(_) => pc.Idle? && role.Worker?
    case Next => pc.Looping?
    case Abort => pc.Looping? && role.Worker?
    case Add(got, ok) => pc.Adding? && got.id == pc.job.key.id && (ok ==> Storable(pc.job.key.watch, got))
    case Read(_) => pc.Reading?
    case Notify(outcome) => pc.Notifying? && (outcome.Marked? ==> pc.job.key in s.records)
    case Surfaced => pc.Surfacing?
    case Fail(_) => pc.Failing?
    case Release => pc.Releasing?
    case AckReplayed(_, _) => pc.Acking?
  }

  predicate Enabled(s: Sys, a: Action)
  {
    match a
    case Start => s.phase.Down?
    case FailedStart => s.phase.Down?
    case Cancel => s.phase.Up?
    case StartWatch(w) => !s.phase.Down? && s.reconciler.Free? && w !in s.workers
    case StopWatch(w) => !s.phase.Down? && s.reconciler.Free? && w in s.workers
    case StopAll => s.phase.Draining? && s.reconciler.Free?
    case Stopped => (s.reconciler.Awaiting? || s.reconciler.AwaitingAll?) && forall g :: g in Awaited(s) ==> g !in s.routines
    case Finish => s.phase.Draining? && s.reconciler.Ended? && s.routines == map[]
    case Post(l, m) => l !in s.mail && m.state == Queued && m.createdAt == Seconds(s.now)
                       && (m.ttl.Some? ==> 0 < m.ttl.value <= MAX_MESSAGE_TTL)
    case MarkPushed(l) => l in s.mail
    case MarkSeen(l) => l in s.mail
    case OtherAck(l) => l in s.mail
    case MarkExpired => true
    case Prune(_) => true
    case Surface(key) => key in s.records
    case Dismiss(key, surfacing) => key in s.records && (surfacing || s.records[key].surfacedAt.Some?)
    case Tick(_) => true
    case Move(g, step) => g in s.routines && Ready(s, g, step)
    case End(g) => g in s.routines && s.routines[g].pc.Idle? && Canceled(s, g)
  }

  /** After the release: CatchUp acks when the handler returned nil and gives up otherwise. */
  function Resume(role: Role, pc: Pc): Pc
    requires pc.Releasing?
  {
    if pc.k.ToListener? then Idle
    else if role.Sweep? then Looping(pc.k.rest)
    else if pc.ok then Acking(pc.job, pc.k)
    else Idle
  }

  /** The next job of a loop. A key in flight is skipped: the handler returns nil, so CatchUp goes on to
    * ack the message, while the sweep goes on to its next record. */
  function Taken(role: Role, todo: seq<Job>, inflight: set<Key>): Pc
  {
    if todo == [] then Idle
    else
      var job, k := todo[0], ToLoop(todo[1..]);
      if job.key in inflight then (if role.Sweep? then Looping(todo[1..]) else Acking(job, k))
      else if role.Sweep? then Notifying(job, k)
      else Adding(job, k)
  }

  function NextPc(s: Sys, g: int, step: Step): Pc
    requires g in s.routines && Ready(s, g, step)
  {
    var role, pc := s.routines[g].role, s.routines[g].pc;
    match step
    case Replay(ids) => Looping(Jobs(role.watch, ids))
    case Batch(batch) => Looping(batch)
    case Push(id) =>
      var key := Key(role.watch, id);
      if key in s.inflight then Idle else Adding(Job(key, 0), ToListener)
    case Next => Taken(role, pc.todo, s.inflight)
    case Abort => Idle
    case Add(_, ok) =>
      if !ok then Releasing(pc.job, pc.k, false)
      else if pc.job.key in s.records then Reading(pc.job, pc.k)
      else Notifying(Job(pc.job.key, 0), pc.k)
    case Read(found) =>
      if !found || pc.job.key !in s.records then Releasing(pc.job, pc.k, false)
      else if Settled(s.records[pc.job.key], s.now) then Releasing(pc.job, pc.k, true)
      else Notifying(Job(pc.job.key, s.records[pc.job.key].attempts), pc.k)
    case Notify(outcome) =>
      (match outcome
       case Marked => Surfacing(pc.job, pc.k)
       case CapExceeded => Releasing(pc.job, pc.k, true)
       case NotNotified => Failing(pc.job, pc.k))
    case Surfaced => Releasing(pc.job, pc.k, true)
    case Fail(stored) => Releasing(pc.job, pc.k, stored && pc.job.key in s.records)
    case Release => Resume(role, pc)
    case AckReplayed(reached, answered) =>
      if reached && answered && Acceptable(s, pc.job.key) && pc.k.ToLoop? then Looping(pc.k.rest) else Idle
  }

  function NextRoutines(s: Sys, a: Action): map<int, Routine>
    requires Enabled(s, a)
  {
    match a
    case Start => s.routines[s.spawned := Routine(Sweep, Idle)]
    case StartWatch(w) => s.routines[s.spawned := Routine(Worker(w), Idle)]
    case End(g) => s.routines - {g}
    case Move(g, step) => s.routines[g := Routine(s.routines[g].role, NextPc(s, g, step))]
    case _ => s.routines
  }

  function NextInflight(s: Sys, a: Action): set<Key>
    requires Enabled(s, a)
  {
    match a
    case Move(g, step) =>
      if (step.Next? || step.Push?) && Inside(NextPc(s, g, step)) then s.inflight + {NextPc(s, g, step).job.key}
      else if step.Release? then s.inflight - {s.routines[g].pc.job.key}
      else s.inflight
    case Stopped => if s.reconciler.AwaitingAll? then {} else s.inflight
    case FailedStart => {}
    case Finish => {}
    case _ => s.inflight
  }

  function RecordsAfter(s: Sys, g: int, step: Step): map<Key, Record>
    requires g in s.routines && Ready(s, g, step)
  {
    var pc := s.routines[g].pc;
    match step
    case Add(got, ok) => if ok && pc.job.key !in s.records then s.records[pc.job.key := NewRecord(got)] else s.records
    case Notify(outcome) =>
      if outcome.Marked? then s.records[pc.job.key := MarkedNotified(s.records[pc.job.key], s.now)] else s.records
    case Fail(stored) =>
      if stored && pc.job.key in s.records
      then s.records[pc.job.key := FailureRecorded(s.records[pc.job.key], pc.job.attempts, s.now)]
      else s.records
    case _ => s.records
  }

  function NextRecords(s: Sys, a: Action): map<Key, Record>
    requires Enabled(s, a)
  {
    match a
    case Move(g, step) => RecordsAfter(s, g, step)
    case Prune(before) => map key | key in s.records && !Prunable(s.records[key], before) :: s.records[key]
    case Surface(key) => s.records[key := SurfacedRow(s.records[key], s.now)]
    case Dismiss(key, surfacing) =>
      s.records[key := DismissedRow(if surfacing then SurfacedRow(s.records[key], s.now) else s.records[key], s.now)]
    case _ => s.records
  }

  function NextMail(s: Sys, a: Action): map<Letter, Message>
    requires Enabled(s, a)
  {
    match a
    case Post(l, m) => s.mail[l := m]
    case MarkPushed(l) => s.mail[l := PushedRow(s.mail[l], s.now)]
    case MarkSeen(l) => s.mail[l := SeenRow(s.mail[l], s.now)]
    case OtherAck(l) => s.mail[l := AckedRow(s.mail[l], s.now)]
    case Move(g, step) =>
      if step.AckReplayed? && step.reached && Acceptable(s, s.routines[g].pc.job.key)
      then
        var l := LetterOf(s.routines[g].pc.job.key);
        s.mail[l := AckedRow(s.mail[l], s.now)]
      else s.mail
    case MarkExpired => map l | l in s.mail :: ExpiredRow(s.mail[l], s.now)
    case _ => s.mail
  }

  function NextWorkers(s: Sys, a: Action): map<Watch, int>
    requires Enabled(s, a)
  {
    match a
    case StartWatch(w) => s.workers[w := s.spawned]
    case StopWatch(w) => s.workers - {w}
    case StopAll => map[]
    case Finish => map[]
    case _ => s.workers
  }

  function NextReconciler(s: Sys, a: Action): Reconciler
    requires Enabled(s, a)
  {
    match a
    case StopWatch(w) => Awaiting({s.workers[w]})
    case StopAll => AwaitingAll(s.workers.Values)
    case Stopped => if s.reconciler.Awaiting? then Free else Ended
    case Finish => Free
    case _ => s.reconciler
  }

  function NextPhase(s: Sys, a: Action): Phase
    requires Enabled(s, a)
  {
    match a
    case Start => Up
    case Cancel => Draining
    case Finish => Down
    case _ => s.phase
  }

  function Apply(s: Sys, a: Action): Sys
    requires Enabled(s, a)
  {
    Sys(NextMail(s, a), NextRecords(s, a), s.recorded + NextRecords(s, a).Keys,
        NextPhase(s, a), NextReconciler(s, a), NextWorkers(s, a), NextRoutines(s, a),
        if a.Start? || a.StartWatch? then s.spawned + 1 else s.spawned,
        NextInflight(s, a), if a.Tick? then s.now + a.elapsed else s.now)
  }

  ghost predicate Run(states: seq<Sys>, actions: seq<Action>)
  {
    && |states| == |actions| + 1
    && states[0] == INITIAL
    && forall i :: 0 <= i < |actions| ==> Enabled(states[i], actions[i])
                                           && states[i + 1] == Apply(states[i], actions[i])
  }

  // ---------------------------------------------------------------- invariant

  predicate Listed(s: Sys, g: int)
    requires IsWorker(s, g)
  {
    s.routines[g].role.watch in s.workers && s.workers[s.routines[g].role.watch] == g
  }

  predicate Accounted(s: Sys, g: int)
    requires IsWorker(s, g)
  {
    Listed(s, g) || g in Awaited(s)
  }

  /** Each running worker is the one its watch's entry names or one the reconciler waits for; a watch has
    * one worker at most, the manager one sweep, and what is gone leaves nothing behind. */
  ghost predicate Staffed(s: Sys)
  {
    && (forall g :: g in s.routines ==> g < s.spawned)
    && (forall w :: w in s.workers ==> s.workers[w] < s.spawned)
    && (forall g :: IsWorker(s, g) ==> Accounted(s, g))
    && (forall g, h :: IsWorker(s, g) && IsWorker(s, h) && s.routines[g].role == s.routines[h].role ==> g == h)
    && (forall g, h :: IsSweep(s, g) && IsSweep(s, h) ==> g == h)
    && (s.reconciler.AwaitingAll? || s.reconciler.Ended? ==> s.workers == map[])
    && (s.phase.Down? ==> s.routines == map[] && s.workers == map[] && s.reconciler.Free?)
  }

  /** In-flight keys are exactly the held ones, until shutdown empties the set under a sweep that may
    * still hold one; and no key is held twice. */
  ghost predicate Exclusive(s: Sys)
  {
    && (forall g, key :: Holds(s, g, key) && !s.reconciler.Ended? ==> key in s.inflight)
    && (forall g, h, key :: Holds(s, g, key) && Holds(s, h, key) ==> g == h)
    && (forall key :: key in s.inflight ==> exists g :: Holds(s, g, key))
  }

  /** A sweep's job comes from a stored record; a worker's job is of its own watch. */
  predicate SoundJob(recorded: set<Key>, role: Role, job: Job)
  {
    match role
    case Worker(w) => job.key.watch == w
    case Sweep => job.key in recorded && 0 <= job.attempts < RETRY_LIMIT
  }

  predicate SoundJobs(recorded: set<Key>, role: Role, jobs: seq<Job>)
  {
    forall i :: 0 <= i < |jobs| ==> SoundJob(recorded, role, jobs[i])
  }

  predicate SoundKont(recorded: set<Key>, role: Role, k: Kont)
  {
    match k
    case ToListener => role.Worker?
    case ToLoop(rest) => SoundJobs(recorded, role, rest)
  }

  /** From the insertion or the read onwards, the job's key has been recorded. */
  predicate SoundPc(recorded: set<Key>, role: Role, pc: Pc)
  {
    match pc
    case Idle => true
    case Looping(todo) => SoundJobs(recorded, role, todo)
    case Adding(job, k) => role.Worker? && SoundJob(recorded, role, job) && SoundKont(recorded, role, k)
    case Reading(job, k) => role.Worker? && SoundJob(recorded, role, job) && SoundKont(recorded, role, k) && job.key in recorded
    case Notifying(job, k) =>
      SoundJob(recorded, role, job) && SoundKont(recorded, role, k) && job.key in recorded && 0 <= job.attempts < RETRY_LIMIT
    case Surfacing(job, k) => SoundJob(recorded, role, job) && SoundKont(recorded, role, k) && job.key in recorded
    case Failing(job, k) =>
      SoundJob(recorded, role, job) && SoundKont(recorded, role, k) && job.key in recorded && 0 <= job.attempts < RETRY_LIMIT
    case Releasing(job, k, ok) =>
      SoundJob(recorded, role, job) && SoundKont(recorded, role, k) && (ok ==> job.key in recorded)
    case Acking(job, k) => role.Worker? && SoundJob(recorded, role, job) && SoundKont(recorded, role, k) && job.key in recorded
  }

  ghost predicate SoundRoutines(s: Sys)
  {
    forall g :: g in s.routines ==> SoundPc(s.recorded, s.routines[g].role, s.routines[g].pc)
  }

  ghost predicate SoundRecords(s: Sys)
  {
    forall key :: key in s.records ==> SoundRecord(s.records[key]) && key in s.recorded
  }

  /** What a worker read of a record is what the record still says when the worker notifies it or counts a
    * failure, and the record still waits to be notified. */
  ghost predicate WorkersUpToDate(s: Sys)
  {
    forall g :: IsWorker(s, g) ==> UpToDate(s.records, s.routines[g].pc, s.now)
  }

  predicate UpToDate(records: map<Key, Record>, pc: Pc, now: Time)
  {
    (pc.Notifying? || pc.Failing?) && pc.job.key in records ==>
      records[pc.job.key].attempts == pc.job.attempts && !Settled(records[pc.job.key], now)
  }

  ghost predicate Inv(s: Sys)
  {
    Staffed(s) && Exclusive(s) && SoundRoutines(s) && SoundRecords(s) && WorkersUpToDate(s)
  }
}
