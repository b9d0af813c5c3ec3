/** Exhaustion is not final: a run in which a sweep that read a record early finds it exhausted by a
  * worker and, from the attempts it had read, counts it back to its first failure. */
module DeliveryExhaustion {
  import opened Wrappers
  import opened DeliveryTables
  import opened DeliveryRuns

  const WATCH: Watch := Watch("project", "agent")
  const KEY: Key := Key(WATCH, 1)
  const DELIVERY: Delivery := Delivery(1, "sender", "body", Some(0), Some(0))
  const MINUTE: nat := 60000

  ghost predicate Reached(s: Sys)
  {
    exists states: seq<Sys>, actions: seq<Action> :: Run(states, actions) && states[|actions|] == s
  }

  lemma ReachedNext(s: Sys, a: Action)
    requires Reached(s) && Enabled(s, a)
    ensures Reached(Apply(s, a))
  {
    var states: seq<Sys>, actions: seq<Action> :| Run(states, actions) && states[|actions|] == s;
    var longer, more := states + [Apply(s, a)], actions + [a];
    forall i | 0 <= i < |more|
      ensures Enabled(longer[i], more[i]) && longer[i + 1] == Apply(longer[i], more[i])
    {
      if i < |actions| {
        assert longer[i] == states[i] && longer[i + 1] == states[i + 1] && more[i] == actions[i];
      }
    }
    assert Run(longer, more) && longer[|more|] == Apply(s, a);
  }

  /** One watch, one message, one sweep (routine 0) and one worker (routine 1). */
  function Scene(records: map<Key, Record>, sweep: Pc, worker: Pc, inflight: set<Key>, now: Time): Sys
  {
    Sys(map[], records, records.Keys, Up, Free, map[WATCH := 1],
        map[0 := Routine(Sweep, sweep), 1 := Routine(Worker(WATCH), worker)], 2, inflight, now)
  }

  /** A step of the worker: what it makes of its own place, of the in-flight set and of the records. */
  predicate Works(records: map<Key, Record>, sweep: Pc, pc: Pc, held: set<Key>, now: Time, step: Step,
                  records': map<Key, Record>, pc': Pc, held': set<Key>)
  {
    var s := Scene(records, sweep, pc, held, now);
    && Ready(s, 1, step) && !step.AckReplayed?
    && NextPc(s, 1, step) == pc'
    && RecordsAfter(s, 1, step) == records' && records.Keys <= records'.Keys
    && NextInflight(s, Move(1, step)) == held'
  }

  lemma WorkerScene(records: map<Key, Record>, sweep: Pc, pc: Pc, held: set<Key>, now: Time, step: Step,
                    records': map<Key, Record>, pc': Pc, held': set<Key>)
    requires Works(records, sweep, pc, held, now, step, records', pc', held')
    ensures Apply(Scene(records, sweep, pc, held, now), Move(1, step)) == Scene(records', sweep, pc', held', now)
  {
    var s, s' := Scene(records, sweep, pc, held, now), Scene(records', sweep, pc', held', now);
    assert NextRoutines(s, Move(1, step)) == s'.routines;
    assert s.recorded + records'.Keys == records'.Keys;
  }

  lemma WorkerStep(records: map<Key, Record>, sweep: Pc, pc: Pc, held: set<Key>, now: Time, step: Step,
                   records': map<Key, Record>, pc': Pc, held': set<Key>)
    requires Reached(Scene(records, sweep, pc, held, now)) && Works(records, sweep, pc, held, now, step, records', pc', held')
    ensures Reached(Scene(records', sweep, pc', held', now))
  {
    WorkerScene(records, sweep, pc, held, now, step, records', pc', held');
    ReachedNext(Scene(records, sweep, pc, held, now), Move(1, step));
  }

  lemma Reread(r: Record, sweep: Pc, now: Time)
    requires Reached(Scene(map[KEY := r], sweep, Idle, {}, now))
    ensures Reached(Scene(map[KEY := r], sweep, Reading(Job(KEY, 0), ToListener), {KEY}, now))
  {
    var adding, rs := Adding(Job(KEY, 0), ToListener), map[KEY := r];
    WorkerStep(rs, sweep, Idle, {}, now, Push(1), rs, adding, {KEY});
    WorkerStep(rs, sweep, adding, {KEY}, now, Add(DELIVERY, true), rs, Reading(Job(KEY, 0), ToListener), {KEY});
  }

  lemma HandedOver(r: Record, sweep: Pc, now: Time)
    requires Reached(Scene(map[KEY := r], sweep, Idle, {}, now)) && !Settled(r, now)
    ensures Reached(Scene(map[KEY := r], sweep, Notifying(Job(KEY, r.attempts), ToListener), {KEY}, now))
  {
    Reread(r, sweep, now);
    var rs := map[KEY := r];
    WorkerStep(rs, sweep, Reading(Job(KEY, 0), ToListener), {KEY}, now, Read(true),
               rs, Notifying(Job(KEY, r.attempts), ToListener), {KEY});
  }

  lemma CannotNotify(rs: map<Key, Record>, job: Job, sweep: Pc, now: Time)
    requires Reached(Scene(rs, sweep, Notifying(job, ToListener), {KEY}, now))
    ensures Reached(Scene(rs, sweep, Failing(job, ToListener), {KEY}, now))
  {
    WorkerStep(rs, sweep, Notifying(job, ToListener), {KEY}, now, Notify(NotNotified), rs, Failing(job, ToListener), {KEY});
  }

  lemma FailureCounted(r: Record, sweep: Pc, now: Time)
    requires Reached(Scene(map[KEY := r], sweep, Failing(Job(KEY, r.attempts), ToListener), {KEY}, now))
    ensures Reached(Scene(map[KEY := FailureRecorded(r, r.attempts, now)], sweep,
                          Releasing(Job(KEY, r.attempts), ToListener, true), {KEY}, now))
  {
    var job := Job(KEY, r.attempts);
    var rs, rs' := map[KEY := r], map[KEY := FailureRecorded(r, r.attempts, now)];
    WorkerStep(rs, sweep, Failing(job, ToListener), {KEY}, now, Fail(true), rs', Releasing(job, ToListener, true), {KEY});
  }

  /** The worker is handed the message again, cannot notify, and counts one more failure. */
  lemma WorkerFails(r: Record, sweep: Pc, now: Time)
    requires Reached(Scene(map[KEY := r], sweep, Idle, {}, now)) && !Settled(r, now)
    ensures Reached(Scene(map[KEY := FailureRecorded(r, r.attempts, now)], sweep, Idle, {}, now))
  {
    var rs' := map[KEY := FailureRecorded(r, r.attempts, now)];
    HandedOver(r, sweep, now);
    CannotNotify(map[KEY := r], Job(KEY, r.attempts), sweep, now);
    FailureCounted(r, sweep, now);
    WorkerStep(rs', sweep, Releasing(Job(KEY, r.attempts), ToListener, true), {KEY}, now, Release, rs', Idle, {});
  }

  lemma MinutePasses(records: map<Key, Record>, sweep: Pc, now: Time)
    requires Reached(Scene(records, sweep, Idle, {}, now))
    ensures Reached(Scene(records, sweep, Idle, {}, now + MINUTE))
  {
    var s := Scene(records, sweep, Idle, {}, now);
    ReachedNext(s, Tick(MINUTE));
    assert s.recorded + NextRecords(s, Tick(MINUTE)).Keys == records.Keys;
  }

  /** After n failures a minute apart, while the sweep sits on what it read at first. */
  lemma {:induction false} FailuresReached(n: nat, sweep: Pc) returns (r: Record, now: Time)
    requires n <= RETRY_LIMIT && Reached(Scene(map[KEY := NewRecord(DELIVERY)], sweep, Idle, {}, 0))
    ensures Reached(Scene(map[KEY := r], sweep, Idle, {}, now))
    ensures r.attempts == n && r.notifiedAt.None? && (n == RETRY_LIMIT <==> r.exhaustedAt.Some?)
    ensures n < RETRY_LIMIT ==> !Settled(r, now)
  {
    if n == 0 {
      r, now := NewRecord(DELIVERY), 0;
    } else {
      var before, earlier := FailuresReached(n - 1, sweep);
      WorkerFails(before, sweep, earlier);
      r := FailureRecorded(before, before.attempts, earlier);
      MinutePasses(map[KEY := r], sweep, earlier);
      now := earlier + MINUTE;
      DelaysGrowToTheCap(n, n);
    }
  }

  const STALE: Job := Job(KEY, 0)

  lemma BothRunning()
    ensures Reached(Scene(map[], Idle, Idle, {}, 0))
  {
    var states, actions: seq<Action> := [INITIAL], [];
    assert Run(states, actions) && states[|actions|] == INITIAL;
    ReachedNext(INITIAL, Start);
    var s := Apply(INITIAL, Start);
    ReachedNext(s, StartWatch(WATCH));
    assert Apply(s, StartWatch(WATCH)) == Scene(map[], Idle, Idle, {}, 0);
  }

  lemma Stored()
    ensures Reached(Scene(map[KEY := NewRecord(DELIVERY)], Idle, Notifying(STALE, ToListener), {KEY}, 0))
  {
    BothRunning();
    var adding, notifying := Adding(STALE, ToListener), Notifying(STALE, ToListener);
    WorkerStep(map[], Idle, Idle, {}, 0, Push(1), map[], adding, {KEY});
    WorkerStep(map[], Idle, adding, {KEY}, 0, Add(DELIVERY, true), map[KEY := NewRecord(DELIVERY)], notifying, {KEY});
  }

  /** The first signal hits the cap, which leaves the record due, and the sweep reads it. */
  lemma SweepHasRead()
    ensures Reached(Scene(map[KEY := NewRecord(DELIVERY)], Looping([STALE]), Idle, {}, 0))
  {
    Stored();
    var rs := map[KEY := NewRecord(DELIVERY)];
    var notifying, releasing := Notifying(STALE, ToListener), Releasing(STALE, ToListener, true);
    WorkerStep(rs, Idle, notifying, {KEY}, 0, Notify(Outcome.CapExceeded), rs, releasing, {KEY});
    WorkerStep(rs, Idle, releasing, {KEY}, 0, Release, rs, Idle, {});
    SweepReads(rs);
  }

  lemma SweepReads(rs: map<Key, Record>)
    requires rs == map[KEY := NewRecord(DELIVERY)] && Reached(Scene(rs, Idle, Idle, {}, 0))
    ensures Reached(Scene(rs, Looping([STALE]), Idle, {}, 0))
  {
    var s := Scene(rs, Idle, Idle, {}, 0);
    assert SweepBatch(s, [STALE]);
    ReachedNext(s, Move(0, Batch([STALE])));
    assert s.recorded + rs.Keys == rs.Keys;
    assert Apply(s, Move(0, Batch([STALE]))) == Scene(rs, Looping([STALE]), Idle, {}, 0);
  }

  /** A step of the sweep that changes no record. */
  predicate Sweeps(rs: map<Key, Record>, pc: Pc, held: set<Key>, now: Time, step: Step, pc': Pc, held': set<Key>)
  {
    var s := Scene(rs, pc, Idle, held, now);
    && Ready(s, 0, step) && (step.Next? || step == Notify(NotNotified))
    && NextPc(s, 0, step) == pc' && NextInflight(s, Move(0, step)) == held'
  }

  lemma SweepScene(rs: map<Key, Record>, pc: Pc, held: set<Key>, now: Time, step: Step, pc': Pc, held': set<Key>)
    requires Sweeps(rs, pc, held, now, step, pc', held')
    ensures Apply(Scene(rs, pc, Idle, held, now), Move(0, step)) == Scene(rs, pc', Idle, held', now)
  {
    var s, s' := Scene(rs, pc, Idle, held, now), Scene(rs, pc', Idle, held', now);
    assert NextRoutines(s, Move(0, step)) == s'.routines;
    assert rs.Keys + rs.Keys == rs.Keys;
  }

  lemma SweepStep(rs: map<Key, Record>, pc: Pc, held: set<Key>, now: Time, step: Step, pc': Pc, held': set<Key>)
    requires Reached(Scene(rs, pc, Idle, held, now)) && Sweeps(rs, pc, held, now, step, pc', held')
    ensures Reached(Scene(rs, pc', Idle, held', now))
  {
    SweepScene(rs, pc, held, now, step, pc', held');
    ReachedNext(Scene(rs, pc, Idle, held, now), Move(0, step));
  }

  /** The sweep takes up what it read and cannot notify either. */
  lemma SweepCannotNotify(rs: map<Key, Record>, now: Time)
    requires Reached(Scene(rs, Looping([STALE]), Idle, {}, now)) && KEY in rs
    ensures Reached(Scene(rs, Failing(STALE, ToLoop([])), Idle, {KEY}, now))
  {
    assert [STALE][1..] == [];
    SweepStep(rs, Looping([STALE]), {}, now, Next, Notifying(STALE, ToLoop([])), {KEY});
    SweepStep(rs, Notifying(STALE, ToLoop([])), {KEY}, now, Notify(NotNotified), Failing(STALE, ToLoop([])), {KEY});
  }

  predicate Exhausted(s: Sys) { KEY in s.records && s.records[KEY].exhaustedAt.Some? }

  /** The record is exhausted, and the next step, the sweep's, makes it due again after one failure. */
  lemma ExhaustionIsNotFinal()
    ensures exists s: Sys, a: Action ::
              Reached(s) && Enabled(s, a) && Exhausted(s) && !Exhausted(Apply(s, a))
              && KEY in Apply(s, a).records && Apply(s, a).records[KEY].attempts == 1
  {
    SweepHasRead();
    var r, now := FailuresReached(RETRY_LIMIT, Looping([STALE]));
    SweepCannotNotify(map[KEY := r], now);
    var s := Scene(map[KEY := r], Failing(STALE, ToLoop([])), Idle, {KEY}, now);
    assert Enabled(s, Move(0, Fail(true))) && Exhausted(s);
    assert !Exhausted(Apply(s, Move(0, Fail(true))));
  }
}
