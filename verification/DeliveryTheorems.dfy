/** What every step of the delivery pipeline keeps, and what follows for whole runs. */
module DeliveryTheorems {
  import opened Wrappers
  import opened DeliveryTables
  import opened DeliveryRuns

  // ---------------------------------------------------------------- who runs

  /** Routines keep their role; only the two starts add one. */
  lemma RolesKept(s: Sys, a: Action, g: int)
    requires Enabled(s, a) && g in NextRoutines(s, a)
    ensures g in s.routines && !(g == s.spawned && (a.Start? || a.StartWatch?)) ==>
              NextRoutines(s, a)[g].role == s.routines[g].role
    ensures g !in s.routines ==>
              g == s.spawned && ((a.Start? && NextRoutines(s, a)[g].role.Sweep?)
                                 || (a.StartWatch? && NextRoutines(s, a)[g].role == Worker(a.w)))
  {
  }

  lemma StillAccounted(s: Sys, a: Action, g: int)
    requires Staffed(s) && Enabled(s, a) && IsWorker(Apply(s, a), g)
    ensures Accounted(Apply(s, a), g)
  {
    RolesKept(s, a, g);
    if g in s.routines {
      assert IsWorker(s, g);
      if a.StopAll? && Listed(s, g) {
        assert s.workers[s.routines[g].role.watch] in s.workers.Values;
      }
    }
  }

  lemma KeepsStaffed(s: Sys, a: Action)
    requires Staffed(s) && Enabled(s, a)
    ensures Staffed(Apply(s, a))
  {
    var s' := Apply(s, a);
    forall g | g in s'.routines
      ensures g < s'.spawned
      ensures IsWorker(s', g) ==> Accounted(s', g)
      ensures g in s.routines ==> (IsWorker(s', g) ==> IsWorker(s, g)) && (IsSweep(s', g) ==> IsSweep(s, g))
    {
      RolesKept(s, a, g);
      if IsWorker(s', g) {
        StillAccounted(s, a, g);
      }
    }
    forall g, h | IsSweep(s', g) && IsSweep(s', h)
      ensures g == h
    {
      RolesKept(s, a, g);
      RolesKept(s, a, h);
    }
    forall g, h | IsWorker(s', g) && IsWorker(s', h) && s'.routines[g].role == s'.routines[h].role
      ensures g == h
    {
      RolesKept(s, a, g);
      RolesKept(s, a, h);
    }
  }

  // ---------------------------------------------------------------- who holds which key

  predicate Releases(a: Action, g: int) { a.Move? && a.g == g && a.step.Release? }

  predicate Takes(s: Sys, a: Action, g: int, key: Key)
  {
    a.Move? && a.g == g && (a.step.Next? || a.step.Push?) && key !in s.inflight
  }

  lemma HeldAfterMove(s: Sys, g: int, step: Step, key: Key)
    requires g in s.routines && Ready(s, g, step)
    ensures HeldIn(NextPc(s, g, step), key) ==>
              (HeldIn(s.routines[g].pc, key) && !step.Release?) || ((step.Next? || step.Push?) && key !in s.inflight)
    ensures HeldIn(s.routines[g].pc, key) ==> HeldIn(NextPc(s, g, step), key) || step.Release?
  {
  }

  lemma OthersUnmoved(s: Sys, a: Action, g: int)
    requires Enabled(s, a) && (forall h :: h in s.routines ==> h < s.spawned) && !(a.Move? && a.g == g)
    ensures g in NextRoutines(s, a) && Inside(NextRoutines(s, a)[g].pc) ==>
              g in s.routines && s.routines[g] == NextRoutines(s, a)[g]
    ensures g in s.routines && Inside(s.routines[g].pc) ==> g in NextRoutines(s, a) && s.routines[g] == NextRoutines(s, a)[g]
  {
  }

  /** A move changes what its own routine holds and nothing else. */
  lemma HeldAfter(s: Sys, a: Action, g: int, key: Key)
    requires Enabled(s, a) && (forall h :: h in s.routines ==> h < s.spawned)
    ensures Holds(Apply(s, a), g, key) ==> (Holds(s, g, key) && !Releases(a, g)) || Takes(s, a, g, key)
    ensures Holds(s, g, key) ==> Holds(Apply(s, a), g, key) || Releases(a, g)
  {
    if a.Move? && a.g == g {
      HeldAfterMove(s, g, a.step, key);
    } else {
      OthersUnmoved(s, a, g);
    }
  }

  /** Once the reconciler is gone, only the sweep is left. */
  lemma OnlySweepAtEnd(s: Sys, g: int, h: int)
    requires Staffed(s) && s.reconciler.Ended? && g in s.routines && h in s.routines
    ensures g == h
  {
    assert !IsWorker(s, g) && !IsWorker(s, h);
    assert IsSweep(s, g) && IsSweep(s, h);
  }

  lemma StillInFlight(s: Sys, a: Action, g: int, key: Key)
    requires Staffed(s) && Exclusive(s) && Enabled(s, a)
    requires Holds(Apply(s, a), g, key) && !NextReconciler(s, a).Ended?
    ensures key in NextInflight(s, a)
  {
    HeldAfter(s, a, g, key);
    if !Takes(s, a, g, key) && a.Move? && a.step.Release? {
      var other := s.routines[a.g].pc.job.key;
      assert Holds(s, a.g, other);
    }
  }

  lemma TakenAlone(s: Sys, a: Action, g: int, h: int, key: Key)
    requires Staffed(s) && Exclusive(s) && Enabled(s, a)
    requires Holds(s, g, key) || Takes(s, a, g, key)
    requires Holds(s, h, key) || Takes(s, a, h, key)
    ensures g == h
  {
    if s.reconciler.Ended? {
      OnlySweepAtEnd(s, g, h);
    }
  }

  lemma HeldByInFlight(s: Sys, a: Action, key: Key)
    requires Staffed(s) && Exclusive(s) && Enabled(s, a) && key in NextInflight(s, a)
    ensures exists g :: Holds(Apply(s, a), g, key)
  {
    if key in s.inflight {
      var g :| Holds(s, g, key);
      HeldAfter(s, a, g, key);
    } else {
      assert Holds(Apply(s, a), a.g, key);
    }
  }

  lemma KeepsExclusive(s: Sys, a: Action)
    requires Staffed(s) && Exclusive(s) && Enabled(s, a)
    ensures Exclusive(Apply(s, a))
  {
    var s' := Apply(s, a);
    forall g, key | Holds(s', g, key) && !s'.reconciler.Ended?
      ensures key in s'.inflight
    {
      HeldAfter(s, a, g, key);
      StillInFlight(s, a, g, key);
    }
    forall g, h, key | Holds(s', g, key) && Holds(s', h, key)
      ensures g == h
    {
      HeldAfter(s, a, g, key);
      HeldAfter(s, a, h, key);
      TakenAlone(s, a, g, h, key);
    }
    forall key | key in s'.inflight
      ensures exists g :: Holds(s', g, key)
    {
      HeldByInFlight(s, a, key);
    }
  }

  // ---------------------------------------------------------------- what jobs know

  lemma SoundPcGrows(before: set<Key>, after: set<Key>, role: Role, pc: Pc)
    requires before <= after && SoundPc(before, role, pc)
    ensures SoundPc(after, role, pc)
  {
  }

  lemma SoundBatch(s: Sys, batch: seq<Job>)
    requires SoundRecords(s) && SweepBatch(s, batch)
    ensures SoundJobs(s.recorded, Sweep, batch)
  {
  }

  /** The early return: a key in flight when a worker comes to it is held by the sweep, for no other
    * worker has its watch, and the sweep's keys have all been stored. */
  lemma InFlightIsTheSweeps(s: Sys, g: int, key: Key)
    requires Inv(s) && g in s.routines && s.routines[g].role == Worker(key.watch) && !Inside(s.routines[g].pc)
    requires key in s.inflight
    ensures exists h :: IsSweep(s, h) && Holds(s, h, key)
    ensures key in s.recorded
  {
    var h :| Holds(s, h, key);
    assert SoundPc(s.recorded, s.routines[h].role, s.routines[h].pc);
    assert IsWorker(s, g);
    assert !IsWorker(s, h);
    assert IsSweep(s, h);
  }

  lemma SoundNext(s: Sys, g: int)
    requires Inv(s) && g in s.routines && s.routines[g].pc.Looping?
    ensures SoundPc(s.recorded, s.routines[g].role, Taken(s.routines[g].role, s.routines[g].pc.todo, s.inflight))
  {
  }

  lemma SoundMove(s: Sys, g: int, step: Step)
    requires Inv(s) && g in s.routines && Ready(s, g, step)
    ensures SoundPc(s.recorded + RecordsAfter(s, g, step).Keys, s.routines[g].role, NextPc(s, g, step))
  {
    var role, pc, recorded := s.routines[g].role, s.routines[g].pc, s.recorded + RecordsAfter(s, g, step).Keys;
    SoundPcGrows(s.recorded, recorded, role, pc);
    if step.Next? {
      SoundNext(s, g);
      SoundPcGrows(s.recorded, recorded, role, NextPc(s, g, step));
    } else if step.Batch? {
      SoundBatch(s, step.batch);
      SoundPcGrows(s.recorded, recorded, role, NextPc(s, g, step));
    } else if step.Read? && pc.job.key in s.records {
      assert SoundRecord(s.records[pc.job.key]);
    }
  }

  lemma KeepsRoutines(s: Sys, a: Action)
    requires Inv(s) && Enabled(s, a)
    ensures SoundRoutines(Apply(s, a))
  {
    var s' := Apply(s, a);
    forall g | g in s'.routines
      ensures SoundPc(s'.recorded, s'.routines[g].role, s'.routines[g].pc)
    {
      if a.Move? && a.g == g {
        SoundMove(s, g, a.step);
      } else if g in s.routines && s'.routines[g] == s.routines[g] {
        SoundPcGrows(s.recorded, s'.recorded, s.routines[g].role, s.routines[g].pc);
      }
    }
  }

  // ---------------------------------------------------------------- records

  lemma MoveKeepsRecords(s: Sys, g: int, step: Step)
    requires SoundRecords(s) && g in s.routines && Ready(s, g, step)
    requires SoundPc(s.recorded, s.routines[g].role, s.routines[g].pc)
    ensures forall key :: key in RecordsAfter(s, g, step) ==> SoundRecord(RecordsAfter(s, g, step)[key])
  {
  }

  lemma KeepsRecords(s: Sys, a: Action)
    requires SoundRoutines(s) && SoundRecords(s) && Enabled(s, a)
    ensures SoundRecords(Apply(s, a))
  {
    if a.Move? {
      MoveKeepsRecords(s, a.g, a.step);
    }
  }

  /** A record's attempts and times change only under a routine that holds its key. */
  lemma AttemptsChange(s: Sys, a: Action, key: Key)
    requires Enabled(s, a) && key in NextRecords(s, a)
    ensures (key in s.records && NextRecords(s, a)[key].attempts == s.records[key].attempts
             && (!Settled(s.records[key], s.now) ==> !Settled(NextRecords(s, a)[key], Apply(s, a).now)))
            || (a.Move? && Holds(s, a.g, key) && (a.step.Add? || a.step.Notify? || a.step.Fail?))
  {
  }

  /** What the routine's own step makes of the attempts it knows and of those stored. */
  lemma MoveKeepsUpToDate(s: Sys, g: int, step: Step)
    requires g in s.routines && s.routines[g].role.Worker? && Ready(s, g, step) && UpToDate(s.records, s.routines[g].pc, s.now)
    ensures UpToDate(RecordsAfter(s, g, step), NextPc(s, g, step), s.now)
  {
  }

  /** While a worker holds a key, no other routine changes the attempts of its record. */
  lemma OthersKeepUpToDate(s: Sys, a: Action, g: int)
    requires Exclusive(s) && Enabled(s, a) && g in s.routines && !(a.Move? && a.g == g)
    requires UpToDate(s.records, s.routines[g].pc, s.now)
    ensures UpToDate(NextRecords(s, a), s.routines[g].pc, Apply(s, a).now)
  {
    var pc := s.routines[g].pc;
    if (pc.Notifying? || pc.Failing?) && pc.job.key in NextRecords(s, a) {
      AttemptsChange(s, a, pc.job.key);
      assert Holds(s, g, pc.job.key);
    }
  }

  lemma KeepsUpToDate(s: Sys, a: Action)
    requires Staffed(s) && Exclusive(s) && WorkersUpToDate(s) && Enabled(s, a)
    ensures WorkersUpToDate(Apply(s, a))
  {
    var s' := Apply(s, a);
    forall g | IsWorker(s', g)
      ensures UpToDate(s'.records, s'.routines[g].pc, s'.now)
    {
      RolesKept(s, a, g);
      if a.Move? && a.g == g {
        assert IsWorker(s, g);
        MoveKeepsUpToDate(s, g, a.step);
      } else if Inside(s'.routines[g].pc) {
        OthersUnmoved(s, a, g);
        assert IsWorker(s, g);
        OthersKeepUpToDate(s, a, g);
      }
    }
  }

  lemma StepKeepsInv(s: Sys, a: Action)
    requires Inv(s) && Enabled(s, a)
    ensures Inv(Apply(s, a))
  {
    KeepsStaffed(s, a);
    KeepsExclusive(s, a);
    KeepsRoutines(s, a);
    KeepsRecords(s, a);
    KeepsUpToDate(s, a);
  }

  lemma {:induction false} RunsKeepInv(states: seq<Sys>, actions: seq<Action>, i: nat)
    requires Run(states, actions) && i < |states|
    ensures Inv(states[i])
  {
    if i > 0 {
      RunsKeepInv(states, actions, i - 1);
      StepKeepsInv(states[i - 1], actions[i - 1]);
    }
  }

  // ---------------------------------------------------------------- main results

  /** In every run at most one goroutine works for a watch, stopped workers included, and at most one
    * sweep runs. */
  lemma OneWorkerPerWatch(states: seq<Sys>, actions: seq<Action>, i: nat, g: int, h: int)
    requires Run(states, actions) && i < |states|
    requires g in states[i].routines && h in states[i].routines && states[i].routines[g].role == states[i].routines[h].role
    ensures g == h
  {
    RunsKeepInv(states, actions, i);
    assert IsWorker(states[i], g) || IsSweep(states[i], g);
    assert IsWorker(states[i], h) || IsSweep(states[i], h);
  }

  /** No two notifications for the same project, agent and message are in progress together, also while
    * a watch is stopped and restarted and while the manager shuts down and starts again. */
  lemma NoTwoNotifications(states: seq<Sys>, actions: seq<Action>, i: nat, g: int, h: int, key: Key)
    requires Run(states, actions) && i < |states|
    requires InProgress(states[i], g, key) && InProgress(states[i], h, key)
    ensures g == h
  {
    RunsKeepInv(states, actions, i);
    assert Holds(states[i], g, key) && Holds(states[i], h, key);
  }

  /** The in-flight set leaks nothing: it is empty whenever no routine is inside a delivery. */
  lemma InFlightDrains(states: seq<Sys>, actions: seq<Action>, i: nat)
    requires Run(states, actions) && i < |states|
    requires forall g :: g in states[i].routines ==> !Inside(states[i].routines[g].pc)
    ensures states[i].inflight == {}
  {
    RunsKeepInv(states, actions, i);
    assert forall key :: key in states[i].inflight ==> exists g :: Holds(states[i], g, key);
    assert forall key :: key !in states[i].inflight;
  }

  lemma {:induction false} RecordedWasStored(states: seq<Sys>, actions: seq<Action>, i: nat, key: Key)
    requires Run(states, actions) && i < |states| && key in states[i].recorded
    ensures exists k :: 0 <= k <= i && key in states[k].records
  {
    if i > 0 {
      assert states[i] == Apply(states[i - 1], actions[i - 1]);
      if key in states[i - 1].recorded {
        RecordedWasStored(states, actions, i - 1, key);
      } else {
        assert key in states[i].records;
      }
    }
  }

  /** CatchUp sends an ack only for a message whose record was stored before, though the handler also
    * returns nil when the key is in flight. */
  lemma CatchUpAcksOnlyStored(states: seq<Sys>, actions: seq<Action>, i: nat)
    requires Run(states, actions) && i < |actions| && actions[i].Move? && actions[i].step.AckReplayed?
    ensures exists k :: 0 <= k <= i && states[i].routines[actions[i].g].pc.job.key in states[k].records
  {
    RunsKeepInv(states, actions, i);
    var g := actions[i].g;
    assert SoundPc(states[i].recorded, states[i].routines[g].role, states[i].routines[g].pc);
    RecordedWasStored(states, actions, i, states[i].routines[g].pc.job.key);
  }

  predicate SoundLetter(m: Message, key: Key, recorded: set<Key>, now: Time)
  {
    (m.state == Expired ==> Lapsed(m, now)) && (m.state == Acked ==> key in recorded)
  }

  ghost predicate MailSound(s: Sys)
  {
    forall l :: l in s.mail ==> SoundLetter(s.mail[l], KeyOf(l, s.mail[l]), s.recorded, s.now)
  }

  lemma KeepsMailSound(s: Sys, a: Action)
    requires Inv(s) && MailSound(s) && Enabled(s, a) && !a.OtherAck?
    ensures MailSound(Apply(s, a))
  {
    var s' := Apply(s, a);
    assert s.recorded <= s'.recorded && s.now <= s'.now;
    if a.Move? {
      assert SoundPc(s.recorded, s.routines[a.g].role, s.routines[a.g].pc);
    }
    forall l | l in s'.mail
      ensures SoundLetter(s'.mail[l], KeyOf(l, s'.mail[l]), s'.recorded, s'.now)
    {
    }
  }

  lemma {:induction false} RunsKeepMailSound(states: seq<Sys>, actions: seq<Action>, i: nat)
    requires Run(states, actions) && i < |states| && forall k :: 0 <= k < i ==> !actions[k].OtherAck?
    ensures MailSound(states[i])
  {
    if i > 0 {
      RunsKeepMailSound(states, actions, i - 1);
      RunsKeepInv(states, actions, i - 1);
      KeepsMailSound(states[i - 1], actions[i - 1]);
    }
  }

  /** At least once: while only CatchUp acks, a message whose TTL has not run out is still replayable or
    * has had a delivery record for its recipient. */
  lemma NothingLost(states: seq<Sys>, actions: seq<Action>, i: nat, l: Letter)
    requires Run(states, actions) && i < |states| && l in states[i].mail
    requires forall k :: 0 <= k < i ==> !actions[k].OtherAck?
    requires !Lapsed(states[i].mail[l], states[i].now)
    ensures Replayable(states[i].mail[l], states[i].now)
            || exists k :: 0 <= k <= i && KeyOf(l, states[i].mail[l]) in states[k].records
  {
    RunsKeepMailSound(states, actions, i);
    if states[i].mail[l].state == Acked {
      RecordedWasStored(states, actions, i, KeyOf(l, states[i].mail[l]));
    }
  }

  lemma UnfinishedStays(s: Sys, a: Action, key: Key)
    requires Enabled(s, a) && key in s.records && !Finished(s.records[key])
    ensures key in NextRecords(s, a) && NextRecords(s, a)[key].delivery == s.records[key].delivery
  {
  }

  /** No record is dropped or rewritten before its time: it stays stored, with its text, at least until it was
    * notified, exhausted, surfaced or dismissed. */
  lemma {:induction false} StoredUntilFinished(states: seq<Sys>, actions: seq<Action>, i: nat, j: nat, key: Key)
    requires Run(states, actions) && i <= j < |states| && key in states[i].records
    ensures || (key in states[j].records && states[j].records[key].delivery == states[i].records[key].delivery)
            || exists k :: i <= k < j && key in states[k].records && Finished(states[k].records[key])
    decreases j
  {
    if i < j {
      StoredUntilFinished(states, actions, i, j - 1, key);
      assert states[j] == Apply(states[j - 1], actions[j - 1]);
      if key in states[j - 1].records && !Finished(states[j - 1].records[key]) {
        UnfinishedStays(states[j - 1], actions[j - 1], key);
      }
    }
  }

  /** Every stored record keeps its attempts within the limit, is exhausted exactly at the limit, and has
    * exactly one of next retry and exhaustion once an attempt has failed; stale batches included. */
  lemma RetriesStayBounded(states: seq<Sys>, actions: seq<Action>, i: nat, key: Key)
    requires Run(states, actions) && i < |states| && key in states[i].records
    ensures var r := states[i].records[key];
            && 0 <= r.attempts <= 5
            && (r.exhaustedAt.Some? <==> r.attempts == 5)
            && (r.attempts > 0 ==> r.nextAt.Some? != r.exhaustedAt.Some?)
            && (r.attempts == 0 ==> r.nextAt.None? && r.exhaustedAt.None?)
  {
    RunsKeepInv(states, actions, i);
    assert SoundRecord(states[i].records[key]);
  }

  /** A worker's failure counts exactly one more than the record said; the next retry is scheduled by the
    * back-off of that count, or the record is exhausted. */
  lemma WorkerFailureCountsOne(states: seq<Sys>, actions: seq<Action>, i: nat)
    requires Run(states, actions) && i < |actions| && actions[i].Move? && actions[i].step == Fail(true)
    requires IsWorker(states[i], actions[i].g) && states[i].routines[actions[i].g].pc.job.key in states[i].records
    ensures var key := states[i].routines[actions[i].g].pc.job.key;
            var r, r' := states[i].records[key], states[i + 1].records[key];
            && 0 <= r.attempts < 5
            && r'.attempts == r.attempts + 1
            && r'.exhaustedAt == (if r.attempts + 1 == 5 then Some(states[i].now) else None)
            && (r.attempts + 1 < 5 ==> r'.nextAt == Some(states[i].now + 500 * Pow2(r.attempts)))
  {
    RunsKeepInv(states, actions, i);
    var s, g := states[i], actions[i].g;
    assert SoundPc(s.recorded, s.routines[g].role, s.routines[g].pc);
    assert UpToDate(s.records, s.routines[g].pc, s.now);
    assert states[i + 1] == Apply(s, actions[i]);
  }

  /** A worker never notifies a message again: what it marks was not notified, not exhausted and not waiting
    * for a later retry at that very moment. */
  lemma WorkersNotifyOnce(states: seq<Sys>, actions: seq<Action>, i: nat)
    requires Run(states, actions) && i < |actions| && actions[i].Move? && actions[i].step == Notify(Marked)
    requires IsWorker(states[i], actions[i].g)
    ensures var key := states[i].routines[actions[i].g].pc.job.key;
            && key in states[i].records && key in states[i + 1].records
            && var r := states[i].records[key];
            && r.notifiedAt.None? && r.exhaustedAt.None? && (r.nextAt.Some? ==> r.nextAt.value <= states[i].now)
            && states[i + 1].records[key].notifiedAt == Some(states[i].now)
  {
    RunsKeepInv(states, actions, i);
    var s, g := states[i], actions[i].g;
    assert UpToDate(s.records, s.routines[g].pc, s.now);
    assert states[i + 1] == Apply(s, actions[i]);
  }

  /** The sweep, with a job of its batch, has notified or counts a failure short of the limit. */
  predicate StaleRevival(s: Sys, a: Action, key: Key)
  {
    a.Move? && IsSweep(s, a.g) && Holds(s, a.g, key)
    && (a.step == Notify(Marked) || (a.step == Fail(true) && s.routines[a.g].pc.job.attempts + 1 < RETRY_LIMIT))
  }

  /** Exhaustion is undone only by a sweep that still has the record from before, never by a worker. */
  lemma ExhaustionUndone(states: seq<Sys>, actions: seq<Action>, i: nat, key: Key)
    requires Run(states, actions) && i < |actions|
    requires key in states[i].records && states[i].records[key].exhaustedAt.Some?
    requires key in states[i + 1].records
    ensures states[i + 1].records[key].exhaustedAt.None? <==> StaleRevival(states[i], actions[i], key)
  {
    RunsKeepInv(states, actions, i);
    var s, a := states[i], actions[i];
    assert states[i + 1] == Apply(s, a);
    assert SoundRecord(s.records[key]);
    if a.Move? {
      assert SoundPc(s.recorded, s.routines[a.g].role, s.routines[a.g].pc);
      assert IsWorker(s, a.g) ==> UpToDate(s.records, s.routines[a.g].pc, s.now);
      assert IsWorker(s, a.g) || IsSweep(s, a.g);
    }
  }

  /** No sweep has the key in hand or in what is left of its batch. */
  ghost predicate NotInSweep(s: Sys, key: Key)
  {
    forall g :: IsSweep(s, g) ==> Avoids(s.routines[g].pc, key)
  }

  predicate Avoids(pc: Pc, key: Key)
  {
    match pc
    case Idle => true
    case Looping(todo) => NoneIs(todo, key)
    case Releasing(_, k, _) => k.ToLoop? ==> NoneIs(k.rest, key)
    case _ => pc.job.key != key && (pc.k.ToLoop? ==> NoneIs(pc.k.rest, key))
  }

  predicate NoneIs(jobs: seq<Job>, key: Key) { forall i :: 0 <= i < |jobs| ==> jobs[i].key != key }

  lemma SweepStaysAway(s: Sys, g: int, step: Step, key: Key)
    requires g in s.routines && s.routines[g].role.Sweep? && Ready(s, g, step)
    requires SoundPc(s.recorded, Sweep, s.routines[g].pc) && Avoids(s.routines[g].pc, key)
    requires key in s.records && s.records[key].exhaustedAt.Some?
    ensures Avoids(NextPc(s, g, step), key)
  {
    if step.Batch? {
      assert forall i :: 0 <= i < |step.batch| ==> step.batch[i] in step.batch;
    }
  }

  lemma NotInSweepStays(s: Sys, a: Action, key: Key)
    requires Inv(s) && Enabled(s, a) && NotInSweep(s, key)
    requires key in s.records && s.records[key].exhaustedAt.Some?
    ensures NotInSweep(Apply(s, a), key)
  {
    var s' := Apply(s, a);
    forall g | IsSweep(s', g)
      ensures Avoids(s'.routines[g].pc, key)
    {
      RolesKept(s, a, g);
      if g in s.routines && g != s.spawned {
        assert IsSweep(s, g) && SoundPc(s.recorded, Sweep, s.routines[g].pc);
        if a.Move? && a.g == g {
          SweepStaysAway(s, g, a.step, key);
        }
      }
    }
  }

  lemma RevivalNeedsTheJob(s: Sys, a: Action, key: Key)
    requires Inv(s) && Enabled(s, a)
    ensures NotInSweep(s, key) ==> !StaleRevival(s, a, key)
  {
  }

  /** Over runs: a record that is exhausted while no sweep has read it and has yet to deal with it stays
    * exhausted for as long as it is stored. */
  lemma {:induction false} ExhaustedStays(states: seq<Sys>, actions: seq<Action>, i: nat, j: nat, key: Key)
    requires Run(states, actions) && i <= j < |states|
    requires forall m :: i <= m <= j ==> key in states[m].records
    requires states[i].records[key].exhaustedAt.Some? && NotInSweep(states[i], key)
    ensures states[j].records[key].exhaustedAt.Some? && NotInSweep(states[j], key)
    decreases j
  {
    if i < j {
      var s, a := states[j - 1], actions[j - 1];
      ExhaustedStays(states, actions, i, j - 1, key);
      RunsKeepInv(states, actions, j - 1);
      RevivalNeedsTheJob(s, a, key);
      ExhaustionUndone(states, actions, j - 1, key);
      NotInSweepStays(s, a, key);
    }
  }
}
