/** A routine left to itself does what the manager's method does: run with no other step in between, the
  * steps of `DeliveryRuns` leave the tables that `DeliveryManager` is proved to leave. */
module DeliveryAlone {
  import opened Wrappers
  import opened DeliveryTables
  import opened DeliveryRuns
  import DeliveryManager

  /** These steps of the routine, one after the other, lead from `s` to `t`. */
  ghost predicate Leads(s: Sys, g: int, steps: seq<Step>, t: Sys)
    decreases |steps|
  {
    if steps == [] then s == t
    else g in s.routines && Ready(s, g, steps[0]) && Leads(Apply(s, Move(g, steps[0])), g, steps[1..], t)
  }

  ghost predicate Alone(s: Sys, g: int, t: Sys) { exists steps :: Leads(s, g, steps, t) }

  lemma Stays(s: Sys, g: int)
    ensures Alone(s, g, s)
  {
    assert Leads(s, g, [], s);
  }

  lemma First(s: Sys, g: int, step: Step, t: Sys, u: Sys)
    requires g in s.routines && Ready(s, g, step) && Apply(s, Move(g, step)) == t && Alone(t, g, u)
    ensures Alone(s, g, u)
  {
    var steps :| Leads(t, g, steps, u);
    assert ([step] + steps)[1..] == steps;
    assert Leads(s, g, [step] + steps, u);
  }

  /** The routine at `pc`, with these records and these keys in flight. */
  function At(s: Sys, g: int, pc: Pc, records: map<Key, Record>, inflight: set<Key>): Sys
    requires g in s.routines
  {
    s.(routines := s.routines[g := Routine(s.routines[g].role, pc)], records := records,
       recorded := s.recorded + records.Keys, inflight := inflight)
  }

  lemma Twice(s: Sys, g: int, pc: Pc, records: map<Key, Record>, pc': Pc, records': map<Key, Record>, inflight': set<Key>)
    requires g in s.routines && records.Keys <= records'.Keys
    ensures At(At(s, g, pc, records, s.inflight), g, pc', records', inflight') == At(s, g, pc', records', inflight')
  {
    assert s.recorded + records.Keys + records'.Keys == s.recorded + records'.Keys;
  }

  /** Between taking the key and releasing it, a step moves the routine and the records only. */
  lemma Inner(s: Sys, g: int, pc: Pc, records: map<Key, Record>, step: Step, pc': Pc, records': map<Key, Record>, u: Sys)
    requires g in s.routines && (step.Add? || step.Read? || step.Notify? || step.Surfaced? || step.Fail?)
    requires var t := At(s, g, pc, records, s.inflight);
             Ready(t, g, step) && NextPc(t, g, step) == pc' && RecordsAfter(t, g, step) == records'
    requires records.Keys <= records'.Keys && Alone(At(s, g, pc', records', s.inflight), g, u)
    ensures Alone(At(s, g, pc, records, s.inflight), g, u)
  {
    Twice(s, g, pc, records, pc', records', s.inflight);
    First(At(s, g, pc, records, s.inflight), g, step, At(s, g, pc', records', s.inflight), u);
  }

  /** The release is behind it. */
  function Released(s: Sys, g: int, job: Job, k: Kont, ok: bool, records: map<Key, Record>): Sys
    requires g in s.routines
  {
    At(s, g, Resume(s.routines[g].role, Releasing(job, k, ok)), records, s.inflight - {job.key})
  }

  /** Whatever attempts it has read by then, the routine comes to `u` from its release. */
  ghost predicate Onwards(s: Sys, g: int, key: Key, k: Kont, ok: bool, records: map<Key, Record>, u: Sys)
    requires g in s.routines
  {
    forall attempts :: Alone(Released(s, g, Job(key, attempts), k, ok, records), g, u)
  }

  lemma ReleaseAlone(s: Sys, g: int, pc: Pc, records: map<Key, Record>, u: Sys)
    requires g in s.routines && pc.Releasing? && Onwards(s, g, pc.job.key, pc.k, pc.ok, records, u)
    ensures Alone(At(s, g, pc, records, s.inflight), g, u)
  {
    Twice(s, g, pc, records, Resume(s.routines[g].role, pc), records, s.inflight - {pc.job.key});
    First(At(s, g, pc, records, s.inflight), g, Release,
          Released(s, g, Job(pc.job.key, pc.job.attempts), pc.k, pc.ok, records), u);
  }

  lemma WrittenAlone(s: Sys, g: int, job: Job, k: Kont, records: map<Key, Record>, u: Sys)
    requires g in s.routines && job.key in records
    requires Onwards(s, g, job.key, k, true, records[job.key := MarkedNotified(records[job.key], s.now)], u)
    ensures Alone(At(s, g, Notifying(job, k), records, s.inflight), g, u)
  {
    var rows := records[job.key := MarkedNotified(records[job.key], s.now)];
    ReleaseAlone(s, g, Releasing(job, k, true), rows, u);
    Inner(s, g, Surfacing(job, k), rows, Surfaced, Releasing(job, k, true), rows, u);
    Inner(s, g, Notifying(job, k), records, Notify(Marked), Surfacing(job, k), rows, u);
  }

  lemma BrokenAlone(s: Sys, g: int, job: Job, k: Kont, records: map<Key, Record>, u: Sys)
    requires g in s.routines && job.key in records
    requires Onwards(s, g, job.key, k, true, records[job.key := FailureRecorded(records[job.key], job.attempts, s.now)], u)
    ensures Alone(At(s, g, Notifying(job, k), records, s.inflight), g, u)
  {
    var rows := records[job.key := FailureRecorded(records[job.key], job.attempts, s.now)];
    ReleaseAlone(s, g, Releasing(job, k, true), rows, u);
    Inner(s, g, Failing(job, k), records, Fail(true), Releasing(job, k, true), rows, u);
    Inner(s, g, Notifying(job, k), records, Notify(NotNotified), Failing(job, k), records, u);
  }

  lemma CappedAlone(s: Sys, g: int, job: Job, k: Kont, records: map<Key, Record>, u: Sys)
    requires g in s.routines && Onwards(s, g, job.key, k, true, records, u)
    ensures Alone(At(s, g, Notifying(job, k), records, s.inflight), g, u)
  {
    ReleaseAlone(s, g, Releasing(job, k, true), records, u);
    Inner(s, g, Notifying(job, k), records, Notify(CapExceeded), Releasing(job, k, true), records, u);
  }

  /** notifyRecord, the failure it may count, and the release. */
  lemma NotifyAlone(s: Sys, g: int, job: Job, k: Kont, records: map<Key, Record>, signal: DeliveryManager.Signal, u: Sys)
    requires g in s.routines && job.key in records && records[job.key].attempts == job.attempts
    requires Onwards(s, g, job.key, k, true, records[job.key := DeliveryManager.Notified(records[job.key], signal, s.now)], u)
    ensures Alone(At(s, g, Notifying(job, k), records, s.inflight), g, u)
  {
    match signal
    case Written => WrittenAlone(s, g, job, k, records, u);
    case Broken => BrokenAlone(s, g, job, k, records, u);
    case CapExceeded =>
      assert records[job.key := records[job.key]] == records;
      CappedAlone(s, g, job, k, records, u);
  }

  /** handleDelivery from the insertion to the release, when the store refuses the delivery. */
  lemma RefusedAlone(s: Sys, g: int, job: Job, d: Delivery, k: Kont, u: Sys)
    requires g in s.routines && d.id == job.key.id && !Storable(job.key.watch, d)
    requires Onwards(s, g, job.key, k, false, s.records, u)
    ensures Alone(At(s, g, Adding(job, k), s.records, s.inflight), g, u)
  {
    ReleaseAlone(s, g, Releasing(job, k, false), s.records, u);
    Inner(s, g, Adding(job, k), s.records, Add(d, false), Releasing(job, k, false), s.records, u);
  }

  lemma AddStep(s: Sys, g: int, job: Job, d: Delivery, k: Kont, u: Sys)
    requires g in s.routines && d.id == job.key.id && Storable(job.key.watch, d)
    requires Alone(if job.key in s.records then At(s, g, Reading(job, k), s.records, s.inflight)
                   else At(s, g, Notifying(Job(job.key, 0), k), s.records[job.key := NewRecord(d)], s.inflight), g, u)
    ensures Alone(At(s, g, Adding(job, k), s.records, s.inflight), g, u)
  {
    if job.key in s.records {
      Inner(s, g, Adding(job, k), s.records, Add(d, true), Reading(job, k), s.records, u);
    } else {
      Inner(s, g, Adding(job, k), s.records, Add(d, true), Notifying(Job(job.key, 0), k), s.records[job.key := NewRecord(d)], u);
    }
  }

  lemma ReadStep(s: Sys, g: int, job: Job, k: Kont, u: Sys)
    requires g in s.routines && job.key in s.records
    requires Alone(At(s, g, if Settled(s.records[job.key], s.now) then Releasing(job, k, true)
                            else Notifying(Job(job.key, s.records[job.key].attempts), k), s.records, s.inflight), g, u)
    ensures Alone(At(s, g, Reading(job, k), s.records, s.inflight), g, u)
  {
    Inner(s, g, Reading(job, k), s.records, Read(true),
          if Settled(s.records[job.key], s.now) then Releasing(job, k, true)
          else Notifying(Job(job.key, s.records[job.key].attempts), k), s.records, u);
  }

  /** handleDelivery from the insertion to the release, when the store accepts the delivery. */
  lemma HandleAlone(s: Sys, g: int, job: Job, d: Delivery, k: Kont, signal: DeliveryManager.Signal, u: Sys)
    requires g in s.routines && d.id == job.key.id && Storable(job.key.watch, d)
    requires Onwards(s, g, job.key, k, true, DeliveryManager.Handled(s.records, job.key, d, signal, s.now), u)
    ensures Alone(At(s, g, Adding(job, k), s.records, s.inflight), g, u)
  {
    if job.key in s.records {
      if Settled(s.records[job.key], s.now) {
        ReleaseAlone(s, g, Releasing(job, k, true), s.records, u);
      } else {
        NotifyAlone(s, g, Job(job.key, s.records[job.key].attempts), k, s.records, signal, u);
      }
      ReadStep(s, g, job, k, u);
    } else {
      var rows := s.records[job.key := NewRecord(d)];
      assert rows[job.key := DeliveryManager.Notified(rows[job.key], signal, s.now)]
          == DeliveryManager.Handled(s.records, job.key, d, signal, s.now);
      NotifyAlone(s, g, Job(job.key, 0), k, rows, signal, u);
    }
    AddStep(s, g, job, d, k, u);
  }

  // ---------------------------------------------------------------- whole calls

  lemma PushStep(s: Sys, g: int, id: MsgId)
    requires IsWorker(s, g) && s.routines[g].pc.Idle? && s.records.Keys <= s.recorded
    ensures var key := Key(s.routines[g].role.watch, id);
            Apply(s, Move(g, Push(id))) == if key in s.inflight then s
                                           else At(s, g, Adding(Job(key, 0), ToListener), s.records, s.inflight + {key})
  {
    assert s.routines[g := s.routines[g]] == s.routines;
  }

  lemma NextStep(s: Sys, g: int, job: Job, rest: seq<Job>)
    requires g in s.routines && s.routines[g].pc == Looping([job] + rest) && s.records.Keys <= s.recorded
    ensures var role := s.routines[g].role;
            Apply(s, Move(g, Next)) ==
            if job.key in s.inflight
            then At(s, g, if role.Sweep? then Looping(rest) else Acking(job, ToLoop(rest)), s.records, s.inflight)
            else At(s, g, if role.Sweep? then Notifying(job, ToLoop(rest)) else Adding(job, ToLoop(rest)), s.records,
                    s.inflight + {job.key})
  {
    assert ([job] + rest)[1..] == rest;
  }

  /** The key taken is the key given back. */
  lemma Back(s: Sys, g: int, pc: Pc, key: Key, k: Kont, ok: bool, rows: map<Key, Record>, u: Sys)
    requires g in s.routines && key !in s.inflight && s.records.Keys <= rows.Keys
    requires forall attempts :: Alone(At(s, g, Resume(s.routines[g].role, Releasing(Job(key, attempts), k, ok)), rows, s.inflight), g, u)
    ensures Onwards(At(s, g, pc, s.records, s.inflight + {key}), g, key, k, ok, rows, u)
  {
    var t := At(s, g, pc, s.records, s.inflight + {key});
    forall attempts
      ensures Alone(Released(t, g, Job(key, attempts), k, ok, rows), g, u)
    {
      var there := At(s, g, Resume(s.routines[g].role, Releasing(Job(key, attempts), k, ok)), rows, s.inflight);
      assert t.inflight - {key} == s.inflight;
      assert Released(t, g, Job(key, attempts), k, ok, rows) == there;
    }
  }

  lemma LoopEnd(s: Sys, g: int)
    requires g in s.routines && s.routines[g].pc == Looping([])
    ensures Alone(s, g, At(s, g, Idle, s.records, s.inflight))
  {
    Stays(At(s, g, Idle, s.records, s.inflight), g);
    First(s, g, Next, At(s, g, Idle, s.records, s.inflight), At(s, g, Idle, s.records, s.inflight));
  }

  /** handleDelivery from taking the key on. */
  lemma TakenAlone(s: Sys, g: int, d: Delivery, key: Key, k: Kont, signal: DeliveryManager.Signal, u: Sys)
    requires g in s.routines && d.id == key.id && key !in s.inflight
    requires var ok := Storable(key.watch, d);
             var rows := if ok then DeliveryManager.Handled(s.records, key, d, signal, s.now) else s.records;
             forall attempts :: Alone(At(s, g, Resume(s.routines[g].role, Releasing(Job(key, attempts), k, ok)), rows, s.inflight), g, u)
    ensures Alone(At(s, g, Adding(Job(key, 0), k), s.records, s.inflight + {key}), g, u)
  {
    var t := At(s, g, Adding(Job(key, 0), k), s.records, s.inflight + {key});
    AtAgain(s, g, Adding(Job(key, 0), k), s.inflight + {key});
    if Storable(key.watch, d) {
      Back(s, g, Adding(Job(key, 0), k), key, k, true, DeliveryManager.Handled(s.records, key, d, signal, s.now), u);
      HandleAlone(t, g, Job(key, 0), d, k, signal, u);
    } else {
      Back(s, g, Adding(Job(key, 0), k), key, k, false, s.records, u);
      RefusedAlone(t, g, Job(key, 0), d, k, u);
    }
  }

  /** A pushed message handled by its worker alone leaves the records that `Manager.HandleDelivery` leaves,
    * and everything else as it was. */
  lemma PushAlone(s: Sys, g: int, d: Delivery, signal: DeliveryManager.Signal)
    requires IsWorker(s, g) && s.routines[g].pc.Idle? && s.records.Keys <= s.recorded
    ensures var key := Key(s.routines[g].role.watch, d.id);
            Alone(s, g, if key in s.inflight || !Storable(key.watch, d) then s
                        else s.(records := DeliveryManager.Handled(s.records, key, d, signal, s.now),
                                recorded := s.recorded + {key}))
  {
    var key := Key(s.routines[g].role.watch, d.id);
    PushStep(s, g, d.id);
    AtHome(s, g, s.records);
    if key in s.inflight {
      Stays(s, g);
      First(s, g, Push(d.id), s, s);
    } else {
      var rows := if Storable(key.watch, d) then DeliveryManager.Handled(s.records, key, d, signal, s.now) else s.records;
      var u := At(s, g, Idle, rows, s.inflight);
      AtHome(s, g, rows);
      Stays(u, g);
      TakenAlone(s, g, d, key, ToListener, signal, u);
      First(s, g, Push(d.id), At(s, g, Adding(Job(key, 0), ToListener), s.records, s.inflight + {key}), u);
      assert s.recorded + rows.Keys == if Storable(key.watch, d) then s.recorded + {key} else s.recorded;
    }
  }

  lemma AtHome(s: Sys, g: int, rows: map<Key, Record>)
    requires g in s.routines && s.routines[g].pc.Idle? && s.records.Keys <= s.recorded
    ensures At(s, g, Idle, rows, s.inflight) == s.(records := rows, recorded := s.recorded + rows.Keys)
    ensures s.recorded + s.records.Keys == s.recorded
  {
    assert s.routines[g := s.routines[g]] == s.routines;
  }

  lemma AtAgain(s: Sys, g: int, pc: Pc, inflight: set<Key>)
    requires g in s.routines
    ensures var t := At(s, g, pc, s.records, inflight); At(t, g, pc, t.records, t.inflight) == t
  {
  }

  /** The keys a sweep of this batch takes: those no one has in flight. */
  function FreeKeys(batch: seq<Job>, inflight: set<Key>): set<Key>
  {
    set job | job in batch && job.key !in inflight :: job.key
  }

  ghost predicate AsRead(records: map<Key, Record>, batch: seq<Job>)
  {
    && (forall i, j :: 0 <= i < j < |batch| ==> batch[i].key != batch[j].key)
    && (forall i :: 0 <= i < |batch| ==> batch[i].key in records && records[batch[i].key].attempts == batch[i].attempts)
  }

  lemma RetryStep(s: Sys, g: int, job: Job, rest: seq<Job>, signal: DeliveryManager.Signal, u: Sys)
    requires IsSweep(s, g) && s.routines[g].pc == Looping([job] + rest) && s.records.Keys <= s.recorded
    requires job.key in s.records && s.records[job.key].attempts == job.attempts
    requires Alone(At(s, g, Looping(rest),
                      if job.key in s.inflight then s.records
                      else s.records[job.key := DeliveryManager.Notified(s.records[job.key], signal, s.now)], s.inflight), g, u)
    ensures Alone(s, g, u)
  {
    NextStep(s, g, job, rest);
    if job.key in s.inflight {
      First(s, g, Next, At(s, g, Looping(rest), s.records, s.inflight), u);
    } else {
      var rows := s.records[job.key := DeliveryManager.Notified(s.records[job.key], signal, s.now)];
      var t := At(s, g, Notifying(job, ToLoop(rest)), s.records, s.inflight + {job.key});
      Back(s, g, Notifying(job, ToLoop(rest)), job.key, ToLoop(rest), true, rows, u);
      AtAgain(s, g, Notifying(job, ToLoop(rest)), s.inflight + {job.key});
      NotifyAlone(t, g, job, ToLoop(rest), s.records, signal, u);
      First(s, g, Next, t, u);
    }
  }

  lemma {:induction false} SweepLoop(s: Sys, g: int, batch: seq<Job>, signals: map<Key, DeliveryManager.Signal>)
    requires IsSweep(s, g) && s.routines[g].pc == Looping(batch) && s.records.Keys <= s.recorded && AsRead(s.records, batch)
    ensures Alone(s, g, At(s, g, Idle, DeliveryManager.Retried(s.records, FreeKeys(batch, s.inflight), signals, s.now), s.inflight))
    decreases |batch|
  {
    var u := At(s, g, Idle, DeliveryManager.Retried(s.records, FreeKeys(batch, s.inflight), signals, s.now), s.inflight);
    if batch == [] {
      assert DeliveryManager.Retried(s.records, FreeKeys(batch, s.inflight), signals, s.now) == s.records;
      LoopEnd(s, g);
    } else {
      var job, rest := batch[0], batch[1..];
      assert batch == [job] + rest;
      var signal := DeliveryManager.SignalFor(signals, job.key);
      var rows := if job.key in s.inflight then s.records
                  else s.records[job.key := DeliveryManager.Notified(s.records[job.key], signal, s.now)];
      var t := At(s, g, Looping(rest), rows, s.inflight);
      RestAsRead(s.records, rows, batch);
      SweepLoop(t, g, rest, signals);
      RetriedFirst(s.records, rows, batch, s.inflight, signals, s.now);
      Twice(s, g, Looping(rest), rows, Idle, u.records, s.inflight);
      RetryStep(s, g, job, rest, signal, u);
    }
  }

  lemma RestAsRead(records: map<Key, Record>, rows: map<Key, Record>, batch: seq<Job>)
    requires batch != [] && AsRead(records, batch) && records.Keys <= rows.Keys
    requires forall key :: key in records && key != batch[0].key ==> rows[key] == records[key]
    ensures AsRead(rows, batch[1..])
  {
  }

  lemma RetriedFirst(records: map<Key, Record>, rows: map<Key, Record>, batch: seq<Job>, inflight: set<Key>,
                     signals: map<Key, DeliveryManager.Signal>, now: Time)
    requires batch != [] && AsRead(records, batch)
    requires rows == if batch[0].key in inflight then records
                     else records[batch[0].key := DeliveryManager.Notified(records[batch[0].key],
                                                                           DeliveryManager.SignalFor(signals, batch[0].key), now)]
    ensures DeliveryManager.Retried(rows, FreeKeys(batch[1..], inflight), signals, now)
            == DeliveryManager.Retried(records, FreeKeys(batch, inflight), signals, now)
  {
    assert forall job :: job in batch <==> job == batch[0] || job in batch[1..];
    assert batch[0].key !in FreeKeys(batch[1..], inflight);
    assert FreeKeys(batch, inflight) == FreeKeys(batch[1..], inflight) + (if batch[0].key in inflight then {} else {batch[0].key});
  }

  /** A sweep left to itself leaves the records that `Manager.RetryPendingNotifications` leaves, and
    * everything else as it was. */
  lemma SweepAlone(s: Sys, g: int, batch: seq<Job>, signals: map<Key, DeliveryManager.Signal>)
    requires IsSweep(s, g) && s.routines[g].pc.Idle? && SweepBatch(s, batch) && s.records.Keys <= s.recorded
    ensures Alone(s, g, s.(records := DeliveryManager.Retried(s.records, FreeKeys(batch, s.inflight), signals, s.now)))
  {
    var t := At(s, g, Looping(batch), s.records, s.inflight);
    assert AsRead(s.records, batch) by {
      assert forall i :: 0 <= i < |batch| ==> batch[i] in batch;
    }
    SweepLoop(t, g, batch, signals);
    var u := s.(records := DeliveryManager.Retried(s.records, FreeKeys(batch, s.inflight), signals, s.now));
    Twice(s, g, Looping(batch), s.records, Idle, u.records, s.inflight);
    AtHome(s, g, u.records);
    assert s.recorded + u.records.Keys == s.recorded;
    First(s, g, Batch(batch), t, u);
  }

  /** The batch holds due records only, no more than 128, as they are; a smaller one holds them all. */
  lemma BatchMeans(s: Sys, batch: seq<Job>, key: Key)
    requires SweepBatch(s, batch) && key in s.records
    ensures |batch| <= 128
    ensures var r := s.records[key];
            var due := r.notifiedAt.None? && r.exhaustedAt.None? && r.dismissedAt.None?
                       && (r.nextAt.Some? ==> r.nextAt.value <= s.now);
            && (|batch| < 128 && due ==> Job(key, r.attempts) in batch)
            && forall job :: job in batch && job.key == key ==> due && job.attempts == r.attempts
  {
  }

  // ---------------------------------------------------------------- catching up

  /** What the handler makes of the messages of a replay, one after the other. */
  function Caught(rows: map<Key, Record>, mail: map<Letter, Message>, w: Watch, ids: seq<MsgId>, inflight: set<Key>,
                  signals: map<Key, DeliveryManager.Signal>, now: Time): map<Key, Record>
    requires forall id :: id in ids ==> Letter(w.project, id) in mail
    decreases |ids|
  {
    if ids == [] then rows
    else
      var key := Key(w, ids[0]);
      var d := DeliveryManager.DeliveryOf(ids[0], mail[Letter(w.project, ids[0])], now);
      Caught(if key in inflight then rows else DeliveryManager.Handled(rows, key, d, DeliveryManager.SignalFor(signals, key), now),
             mail, w, ids[1..], inflight, signals, now)
  }

  function AckedAll(mail: map<Letter, Message>, project: string, ids: seq<MsgId>, now: Time): map<Letter, Message>
  {
    map l | l in mail :: if l.project == project && l.id in ids then AckedRow(mail[l], now) else mail[l]
  }

  lemma AckStep(s: Sys, g: int, job: Job, rest: seq<Job>)
    requires IsWorker(s, g) && s.routines[g].pc == Acking(job, ToLoop(rest)) && Acceptable(s, job.key)
    requires s.records.Keys <= s.recorded
    ensures var l := LetterOf(job.key);
            Apply(s, Move(g, AckReplayed(true, true))) ==
            At(s, g, Looping(rest), s.records, s.inflight).(mail := s.mail[l := AckedRow(s.mail[l], s.now)])
  {
    assert s.recorded + s.records.Keys == s.recorded;
  }

  function WithMail(s: Sys, mail: map<Letter, Message>): Sys { s.(mail := mail) }

  /** One message of a replay: handled, and acked when the handler has no complaint. */
  lemma ReplayStep(s: Sys, g: int, d: Delivery, key: Key, rest: seq<Job>, signal: DeliveryManager.Signal, u: Sys)
    requires IsWorker(s, g) && s.routines[g].pc == Looping([Job(key, 0)] + rest) && s.records.Keys <= s.recorded
    requires d.id == key.id && Storable(key.watch, d) && Acceptable(s, key)
    requires var rows := if key in s.inflight then s.records else DeliveryManager.Handled(s.records, key, d, signal, s.now);
             var mail := s.mail[LetterOf(key) := AckedRow(s.mail[LetterOf(key)], s.now)];
             Alone(WithMail(At(s, g, Looping(rest), rows, s.inflight), mail), g, u)
    ensures Alone(s, g, u)
  {
    var rows := if key in s.inflight then s.records else DeliveryManager.Handled(s.records, key, d, signal, s.now);
    AckAlone(s, g, key, rest, rows, u);
    NextStep(s, g, Job(key, 0), rest);
    if key in s.inflight {
      First(s, g, Next, At(s, g, Acking(Job(key, 0), ToLoop(rest)), s.records, s.inflight), u);
    } else {
      TakenAlone(s, g, d, key, ToLoop(rest), signal, u);
      First(s, g, Next, At(s, g, Adding(Job(key, 0), ToLoop(rest)), s.records, s.inflight + {key}), u);
    }
  }

  lemma AckAlone(s: Sys, g: int, key: Key, rest: seq<Job>, rows: map<Key, Record>, u: Sys)
    requires IsWorker(s, g) && Acceptable(s, key)
    requires Alone(WithMail(At(s, g, Looping(rest), rows, s.inflight),
                            s.mail[LetterOf(key) := AckedRow(s.mail[LetterOf(key)], s.now)]), g, u)
    ensures forall attempts :: Alone(At(s, g, Acking(Job(key, attempts), ToLoop(rest)), rows, s.inflight), g, u)
  {
    forall attempts
      ensures Alone(At(s, g, Acking(Job(key, attempts), ToLoop(rest)), rows, s.inflight), g, u)
    {
      var acking := At(s, g, Acking(Job(key, attempts), ToLoop(rest)), rows, s.inflight);
      AckStep(acking, g, Job(key, attempts), rest);
      Twice(s, g, acking.routines[g].pc, rows, Looping(rest), rows, s.inflight);
      First(acking, g, AckReplayed(true, true), Apply(acking, Move(g, AckReplayed(true, true))), u);
    }
  }

  /** The messages of a replay that have yet to be handled are as they were when it was answered. */
  ghost predicate AsReplayed(s: Sys, mail: map<Letter, Message>, w: Watch, ids: seq<MsgId>)
  {
    && (forall i, j :: 0 <= i < j < |ids| ==> ids[i] != ids[j])
    && (forall id :: id in ids ==> Letter(w.project, id) in mail && Letter(w.project, id) in s.mail
                                   && s.mail[Letter(w.project, id)] == mail[Letter(w.project, id)]
                                   && mail[Letter(w.project, id)].to == w.agent
                                   && Storable(w, DeliveryManager.DeliveryOf(id, mail[Letter(w.project, id)], s.now)))
  }

  lemma {:induction false} ReplayLoop(s: Sys, g: int, mail: map<Letter, Message>, ids: seq<MsgId>, signals: map<Key, DeliveryManager.Signal>)
    requires IsWorker(s, g) && AsReplayed(s, mail, s.routines[g].role.watch, ids) && s.records.Keys <= s.recorded
    requires s.routines[g].pc == Looping(Jobs(s.routines[g].role.watch, ids))
    ensures var w := s.routines[g].role.watch;
            Alone(s, g, WithMail(At(s, g, Idle, Caught(s.records, mail, w, ids, s.inflight, signals, s.now), s.inflight),
                                 AckedAll(s.mail, w.project, ids, s.now)))
    decreases |ids|
  {
    var w := s.routines[g].role.watch;
    var u := WithMail(At(s, g, Idle, Caught(s.records, mail, w, ids, s.inflight, signals, s.now), s.inflight),
                      AckedAll(s.mail, w.project, ids, s.now));
    if ids == [] {
      assert AckedAll(s.mail, w.project, ids, s.now) == s.mail;
      LoopEnd(s, g);
    } else {
      var key, rest := Key(w, ids[0]), ids[1..];
      var d := DeliveryManager.DeliveryOf(ids[0], mail[LetterOf(key)], s.now);
      var signal := DeliveryManager.SignalFor(signals, key);
      var rows := if key in s.inflight then s.records else DeliveryManager.Handled(s.records, key, d, signal, s.now);
      var acked := s.mail[LetterOf(key) := AckedRow(s.mail[LetterOf(key)], s.now)];
      var t := WithMail(At(s, g, Looping(Jobs(w, rest)), rows, s.inflight), acked);
      assert Jobs(w, ids) == [Job(key, 0)] + Jobs(w, rest);
      StillAsReplayed(s, t, mail, w, ids);
      ReplayLoop(t, g, mail, rest, signals);
      SameEnd(s, g, mail, w, ids, signals, rows, acked);
      ReplayStep(s, g, d, key, Jobs(w, rest), signal, u);
    }
  }

  lemma SameEnd(s: Sys, g: int, mail: map<Letter, Message>, w: Watch, ids: seq<MsgId>, signals: map<Key, DeliveryManager.Signal>,
                rows: map<Key, Record>, acked: map<Letter, Message>)
    requires g in s.routines && ids != [] && AsReplayed(s, mail, w, ids)
    requires var key := Key(w, ids[0]);
             && acked == s.mail[LetterOf(key) := AckedRow(s.mail[LetterOf(key)], s.now)]
             && rows == if key in s.inflight then s.records
                        else DeliveryManager.Handled(s.records, key, DeliveryManager.DeliveryOf(ids[0], mail[LetterOf(key)], s.now),
                                                     DeliveryManager.SignalFor(signals, key), s.now)
    ensures var t := WithMail(At(s, g, Looping(Jobs(w, ids[1..])), rows, s.inflight), acked);
            WithMail(At(t, g, Idle, Caught(rows, mail, w, ids[1..], s.inflight, signals, s.now), s.inflight),
                     AckedAll(acked, w.project, ids[1..], s.now)) ==
            WithMail(At(s, g, Idle, Caught(s.records, mail, w, ids, s.inflight, signals, s.now), s.inflight),
                     AckedAll(s.mail, w.project, ids, s.now))
  {
    AckedFirst(s.mail, acked, w.project, ids, s.now);
    CaughtGrows(rows, mail, w, ids[1..], s.inflight, signals, s.now);
    Twice(s, g, Looping(Jobs(w, ids[1..])), rows, Idle, Caught(rows, mail, w, ids[1..], s.inflight, signals, s.now), s.inflight);
  }

  lemma StillAsReplayed(s: Sys, t: Sys, mail: map<Letter, Message>, w: Watch, ids: seq<MsgId>)
    requires ids != [] && AsReplayed(s, mail, w, ids) && t.now == s.now
    requires t.mail.Keys == s.mail.Keys && forall l :: l in s.mail && l != Letter(w.project, ids[0]) ==> t.mail[l] == s.mail[l]
    ensures AsReplayed(t, mail, w, ids[1..])
  {
    assert forall id :: id in ids[1..] ==> id in ids && id != ids[0];
  }

  lemma AckedFirst(mail: map<Letter, Message>, acked: map<Letter, Message>, project: string, ids: seq<MsgId>, now: Time)
    requires ids != [] && Letter(project, ids[0]) in mail && ids[0] !in ids[1..]
    requires acked == mail[Letter(project, ids[0]) := AckedRow(mail[Letter(project, ids[0])], now)]
    ensures AckedAll(acked, project, ids[1..], now) == AckedAll(mail, project, ids, now)
  {
    assert forall id :: id in ids <==> id == ids[0] || id in ids[1..];
  }

  lemma {:induction false} CaughtGrows(rows: map<Key, Record>, mail: map<Letter, Message>, w: Watch, ids: seq<MsgId>, inflight: set<Key>,
                                       signals: map<Key, DeliveryManager.Signal>, now: Time)
    requires forall id :: id in ids ==> Letter(w.project, id) in mail
    ensures rows.Keys <= Caught(rows, mail, w, ids, inflight, signals, now).Keys
    decreases |ids|
  {
    if ids != [] {
      var key := Key(w, ids[0]);
      var d := DeliveryManager.DeliveryOf(ids[0], mail[Letter(w.project, ids[0])], now);
      CaughtGrows(if key in inflight then rows
                  else DeliveryManager.Handled(rows, key, d, DeliveryManager.SignalFor(signals, key), now),
                  mail, w, ids[1..], inflight, signals, now);
    }
  }

  /** What it comes to: every message of the replay is stored as it stood, unless it was stored before, in
    * which case its text stays, or in flight. */
  lemma {:induction false} CaughtMeans(rows: map<Key, Record>, mail: map<Letter, Message>, w: Watch, ids: seq<MsgId>, inflight: set<Key>,
                                       signals: map<Key, DeliveryManager.Signal>, now: Time)
    requires forall id :: id in ids ==> Letter(w.project, id) in mail
    ensures var after := Caught(rows, mail, w, ids, inflight, signals, now);
            && (forall key :: key in rows ==> key in after && after[key].delivery == rows[key].delivery)
            && (forall id :: id in ids && Key(w, id) !in rows && Key(w, id) !in inflight ==>
                  Key(w, id) in after
                  && var m := mail[Letter(w.project, id)];
                     after[Key(w, id)].delivery == Delivery(id, m.from, m.body, Some(1000 * m.createdAt), Some(now)))
    decreases |ids|
  {
    if ids != [] {
      var key := Key(w, ids[0]);
      var d := DeliveryManager.DeliveryOf(ids[0], mail[Letter(w.project, ids[0])], now);
      CaughtMeans(if key in inflight then rows
                  else DeliveryManager.Handled(rows, key, d, DeliveryManager.SignalFor(signals, key), now),
                  mail, w, ids[1..], inflight, signals, now);
    }
  }

  /** The replay names, in ascending order, exactly the messages to the agent that are neither acked nor
    * expired and have seconds left to live. */
  lemma ReplayMeans(s: Sys, w: Watch, ids: seq<MsgId>, id: MsgId)
    requires ReplayAnswer(s, w, ids)
    ensures forall i, j :: 0 <= i < j < |ids| ==> ids[i] < ids[j]
    ensures id in ids <==>
              var l := Letter(w.project, id);
              && l in s.mail && s.mail[l].to == w.agent && s.mail[l].state in {State.Queued, State.Pushed, State.Seen}
              && (s.mail[l].ttl.Some? ==> s.now / 1000 < s.mail[l].createdAt + s.mail[l].ttl.value)
  {
    var l := Letter(w.project, id);
    assert l in s.mail && InReplay(s, w, l.id) ==> l.id in ids;
  }

  /** A worker that catches up undisturbed handles and acks every message of the replay, as
    * `DeliveryManager.CatchUp` does, and changes nothing else. */
  lemma CatchUpAlone(s: Sys, g: int, ids: seq<MsgId>, signals: map<Key, DeliveryManager.Signal>)
    requires IsWorker(s, g) && s.routines[g].pc.Idle? && ReplayAnswer(s, s.routines[g].role.watch, ids)
    requires s.records.Keys <= s.recorded
    requires var w := s.routines[g].role.watch;
             forall id :: id in ids ==> Storable(w, DeliveryManager.DeliveryOf(id, s.mail[Letter(w.project, id)], s.now))
    ensures var w := s.routines[g].role.watch;
            var rows := Caught(s.records, s.mail, w, ids, s.inflight, signals, s.now);
            Alone(s, g, s.(mail := AckedAll(s.mail, w.project, ids, s.now), records := rows, recorded := s.recorded + rows.Keys))
  {
    var w := s.routines[g].role.watch;
    var t := At(s, g, Looping(Jobs(w, ids)), s.records, s.inflight);
    assert AsReplayed(t, s.mail, w, ids);
    ReplayLoop(t, g, s.mail, ids, signals);
    var rows := Caught(s.records, s.mail, w, ids, s.inflight, signals, s.now);
    CaughtGrows(s.records, s.mail, w, ids, s.inflight, signals, s.now);
    Twice(s, g, Looping(Jobs(w, ids)), s.records, Idle, rows, s.inflight);
    AtHome(s, g, rows);
    var u := s.(mail := AckedAll(s.mail, w.project, ids, s.now), records := rows, recorded := s.recorded + rows.Keys);
    First(s, g, Replay(ids), t, u);
  }

  // ---------------------------------------------------------------- the other steps

  /** A start adds the sweep; a watch adds one worker under a fresh number. */
  lemma StartSteps(s: Sys, w: Watch)
    requires s.records.Keys <= s.recorded
    ensures s.phase.Down? ==>
              Enabled(s, Start) && Apply(s, Start) == s.(phase := Up, spawned := s.spawned + 1,
                                                         routines := s.routines[s.spawned := Routine(Sweep, Idle)])
    ensures !s.phase.Down? && s.reconciler.Free? && w !in s.workers ==>
              Enabled(s, StartWatch(w))
              && Apply(s, StartWatch(w)) == s.(workers := s.workers[w := s.spawned], spawned := s.spawned + 1,
                                               routines := s.routines[s.spawned := Routine(Worker(w), Idle)])
  {
    assert s.recorded + s.records.Keys == s.recorded;
  }

  /** Stopping a watch names the one worker to wait for; the shutdown waits for all of them. */
  lemma StopSteps(s: Sys, w: Watch)
    requires s.records.Keys <= s.recorded
    ensures s.phase.Up? ==> Enabled(s, Cancel) && Apply(s, Cancel) == s.(phase := Draining)
    ensures !s.phase.Down? && s.reconciler.Free? && w in s.workers ==>
              Enabled(s, StopWatch(w))
              && Apply(s, StopWatch(w)) == s.(workers := s.workers - {w}, reconciler := Awaiting({s.workers[w]}))
    ensures s.phase.Draining? && s.reconciler.Free? ==>
              Enabled(s, StopAll) && Apply(s, StopAll) == s.(workers := map[], reconciler := AwaitingAll(s.workers.Values))
  {
    assert s.recorded + s.records.Keys == s.recorded;
  }

  /** The wait ends once those waited for are gone, and the shutdown leaves nothing in flight. */
  lemma WaitSteps(s: Sys)
    requires s.records.Keys <= s.recorded
    ensures s.reconciler.Awaiting? ==> (Enabled(s, Stopped) <==> forall g :: g in s.reconciler.one ==> g !in s.routines)
    ensures s.reconciler.AwaitingAll? ==> (Enabled(s, Stopped) <==> forall g :: g in s.reconciler.all ==> g !in s.routines)
    ensures Enabled(s, Stopped) ==>
              Apply(s, Stopped) == if s.reconciler.Awaiting? then s.(reconciler := Free) else s.(reconciler := Ended, inflight := {})
    ensures s.phase.Draining? && s.reconciler.Ended? && s.routines == map[] ==>
              Enabled(s, Finish) && Apply(s, Finish) == s.(phase := Down, reconciler := Free, workers := map[], inflight := {})
  {
    assert s.recorded + s.records.Keys == s.recorded;
  }

  /** A routine between two deliveries ends when the manager shuts down or its watch names another worker or none. */
  lemma EndingStep(s: Sys, g: int)
    requires s.records.Keys <= s.recorded && g in s.routines && s.routines[g].pc.Idle?
    ensures Enabled(s, End(g)) <==>
              s.phase.Draining?
              || (s.routines[g].role.Worker?
                  && (s.routines[g].role.watch in s.workers ==> s.workers[s.routines[g].role.watch] != g))
    ensures Enabled(s, End(g)) ==> Apply(s, End(g)) == s.(routines := s.routines - {g})
  {
    assert s.recorded + s.records.Keys == s.recorded;
  }

  /** Where errors lead: a worker in its replay gives the rest up; a record that cannot be read, and a failure
    * that cannot be recorded, release the key without success, be it that the store fails or that the record
    * is gone. */
  lemma FaultSteps(s: Sys, g: int, works: bool)
    requires s.records.Keys <= s.recorded && g in s.routines
    ensures s.routines[g].pc.Looping? && s.routines[g].role.Worker? ==>
              Ready(s, g, Abort) && Apply(s, Move(g, Abort)) == At(s, g, Idle, s.records, s.inflight)
    ensures s.routines[g].pc.Reading? && !(works && s.routines[g].pc.job.key in s.records) ==>
              Ready(s, g, Read(works)) && Apply(s, Move(g, Read(works))) == ReleasedInVain(s, g)
    ensures s.routines[g].pc.Failing? && !(works && s.routines[g].pc.job.key in s.records) ==>
              Ready(s, g, Fail(works)) && Apply(s, Move(g, Fail(works))) == ReleasedInVain(s, g)
  {
  }

  function ReleasedInVain(s: Sys, g: int): Sys
    requires g in s.routines && (s.routines[g].pc.Reading? || s.routines[g].pc.Failing?)
  {
    At(s, g, Releasing(s.routines[g].pc.job, s.routines[g].pc.k, false), s.records, s.inflight)
  }

  /** An ack that goes unanswered or is refused ends the replay, whether or not the broker took it. */
  lemma AckFaults(s: Sys, g: int, reached: bool, answered: bool)
    requires s.records.Keys <= s.recorded && g in s.routines && s.routines[g].pc.Acking?
    ensures var l := LetterOf(s.routines[g].pc.job.key);
            var taken := l in s.mail && s.mail[l].to == s.routines[g].pc.job.key.watch.agent;
            !(reached && answered && taken) ==>
              && Ready(s, g, AckReplayed(reached, answered))
              && Apply(s, Move(g, AckReplayed(reached, answered)))
                 == WithMail(At(s, g, Idle, s.records, s.inflight),
                             if reached && taken then s.mail[l := AckedRow(s.mail[l], s.now)] else s.mail)
  {
  }

  /** A start that fails has no effect but to forget what was in flight. */
  lemma FailedStartStep(s: Sys)
    requires s.records.Keys <= s.recorded && s.phase.Down?
    ensures Enabled(s, FailedStart) && Apply(s, FailedStart) == s.(inflight := {})
  {
    assert s.recorded + s.records.Keys == s.recorded;
  }

  /** What brokers do to the message tables, column by column. */
  lemma BrokerSteps(s: Sys, l: Letter)
    requires s.records.Keys <= s.recorded && l in s.mail
    ensures var m := s.mail[l];
            && Apply(s, MarkPushed(l)) == WithMail(s, s.mail[l := m.(state := State.Pushed, pushedAt := Some(s.now / 1000))])
            && Apply(s, MarkSeen(l)) == WithMail(s, s.mail[l := m.(state := State.Seen, seenAt := Some(s.now / 1000))])
            && Apply(s, OtherAck(l)) ==
               WithMail(s, s.mail[l := if m.state in {State.Acked, State.Expired} then m
                                       else m.(state := State.Acked, ackedAt := Some(s.now / 1000))])
  {
    assert s.recorded + s.records.Keys == s.recorded;
  }

  lemma ExpiryStep(s: Sys, l: Letter)
    requires s.records.Keys <= s.recorded
    ensures Apply(s, MarkExpired) == WithMail(s, Apply(s, MarkExpired).mail) && Apply(s, MarkExpired).mail.Keys == s.mail.Keys
    ensures l in s.mail ==>
              var m := s.mail[l];
              Apply(s, MarkExpired).mail[l] ==
              if m.state in {State.Queued, State.Pushed, State.Seen} && m.ttl.Some? && s.now / 1000 >= m.createdAt + m.ttl.value
              then m.(state := State.Expired) else m
  {
    assert s.recorded + s.records.Keys == s.recorded;
  }

  lemma PostStep(s: Sys, l: Letter, m: Message)
    requires s.records.Keys <= s.recorded && l !in s.mail
    requires m.state == State.Queued && m.createdAt == s.now / 1000 && (m.ttl.Some? ==> 0 < m.ttl.value <= 86400)
    ensures Enabled(s, Post(l, m)) && Apply(s, Post(l, m)) == WithMail(s, s.mail[l := m])
  {
    assert s.recorded + s.records.Keys == s.recorded;
  }

  /** Pruning takes exactly the old records that were notified, exhausted, surfaced or dismissed; and time goes on. */
  lemma PruneStep(s: Sys, before: Time, elapsed: nat, key: Key)
    requires s.records.Keys <= s.recorded
    ensures Apply(s, Prune(before)) == s.(records := Apply(s, Prune(before)).records)
    ensures key in Apply(s, Prune(before)).records <==>
              && key in s.records
              && var r := s.records[key];
                 !(r.delivery.receivedAt.Some? && r.delivery.receivedAt.value < before
                   && (r.notifiedAt.Some? || r.exhaustedAt.Some? || r.surfacedAt.Some? || r.dismissedAt.Some?))
    ensures key in Apply(s, Prune(before)).records ==> Apply(s, Prune(before)).records[key] == s.records[key]
    ensures Apply(s, Tick(elapsed)) == s.(now := s.now + elapsed)
  {
    assert s.recorded + s.records.Keys == s.recorded;
    assert s.recorded + Apply(s, Prune(before)).records.Keys == s.recorded;
  }

  lemma SameKeys(s: Sys, key: Key, r: Record)
    requires s.records.Keys <= s.recorded && key in s.records
    ensures s.recorded + s.records[key := r].Keys == s.recorded
  {
  }

  /** A program may surface any record; an earlier time stays. */
  lemma SurfaceStep(s: Sys, key: Key)
    requires s.records.Keys <= s.recorded && key in s.records
    ensures var r := s.records[key];
            var shown := if r.surfacedAt.None? then r.(surfacedAt := Some(s.now)) else r;
            Enabled(s, Surface(key)) && Apply(s, Surface(key)) == s.(records := s.records[key := shown])
  {
    SameKeys(s, key, SurfacedRow(s.records[key], s.now));
  }

  /** It may dismiss a record that was surfaced before, or surface and dismiss it in one. */
  lemma DismissStep(s: Sys, key: Key, surfacing: bool)
    requires s.records.Keys <= s.recorded && key in s.records
    ensures Enabled(s, Dismiss(key, surfacing)) <==> surfacing || s.records[key].surfacedAt.Some?
    ensures surfacing || s.records[key].surfacedAt.Some? ==>
              var r := s.records[key];
              Apply(s, Dismiss(key, surfacing)) ==
              s.(records := s.records[key := r.(surfacedAt := if r.surfacedAt.None? then Some(s.now) else r.surfacedAt,
                                                dismissedAt := if r.dismissedAt.None? then Some(s.now) else r.dismissedAt)])
  {
    SameKeys(s, key, DismissedRow(if surfacing then SurfacedRow(s.records[key], s.now) else s.records[key], s.now));
  }
}
