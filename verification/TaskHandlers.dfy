/** A handler left to itself does what the store's method does: run with no other step in between, the
  * queries, reads and writes of `TaskRuns` leave the rows that `TaskStore.Store` is proved to leave. */
module TaskHandlers {
  import opened Wrappers
  import opened TaskTable
  import opened TaskRuns
  import TaskStore

  ghost predicate Path(states: seq<Sys>, actions: seq<Action>)
  {
    && |states| == |actions| + 1
    && forall i :: 0 <= i < |actions| ==> Enabled(states[i], actions[i]) && states[i + 1] == Apply(states[i], actions[i])
  }

  /** Steps of this handler alone lead from `s` to `t`. */
  ghost predicate Alone(s: Sys, h: int, t: Sys)
  {
    exists states: seq<Sys>, actions: seq<Action> ::
      Path(states, actions) && states[0] == s && states[|actions|] == t && forall a :: a in actions ==> Of(a, h)
  }

  predicate Of(a: Action, h: int)
  {
    match a
    case ResolveQuery(g, _) => g == h
    case ResolveRead(g) => g == h
    case ResolveWrite(g, _) => g == h
    case FailQuery(g, _) => g == h
    case FailWrite(g, _) => g == h
    case Return(g) => g == h
    case _ => false
  }

  lemma Stays(s: Sys, h: int)
    ensures Alone(s, h, s)
  {
    var states, actions: seq<Action> := [s], [];
    assert Path(states, actions) && states[|actions|] == s;
  }

  lemma Prepended(s: Sys, a: Action, states: seq<Sys>, actions: seq<Action>)
    requires Path(states, actions) && Enabled(s, a) && Apply(s, a) == states[0]
    ensures Path([s] + states, [a] + actions)
  {
    forall i | 0 <= i < |[a] + actions|
      ensures Enabled(([s] + states)[i], ([a] + actions)[i])
              && ([s] + states)[i + 1] == Apply(([s] + states)[i], ([a] + actions)[i])
    {
      if i > 0 {
        var j := i - 1;
        assert Enabled(states[j], actions[j]) && states[j + 1] == Apply(states[j], actions[j]);
      }
    }
  }

  lemma First(s: Sys, h: int, a: Action, t: Sys, u: Sys)
    requires Enabled(s, a) && Apply(s, a) == t && Of(a, h) && Alone(t, h, u)
    ensures Alone(s, h, u)
  {
    var states: seq<Sys>, actions: seq<Action> :|
      Path(states, actions) && states[0] == t && states[|actions|] == u && forall a :: a in actions ==> Of(a, h);
    Prepended(s, a, states, actions);
    var longer, more := [s] + states, [a] + actions;
    assert longer[0] == s && longer[|more|] == u;
  }

  function AtRest(s: Sys, h: int): Sys { s.(handlers := s.handlers - {h}) }

  // ---------------------------------------------------------------- ResolveDeps

  function WithHandler(s: Sys, rows: Rows, h: int, r: Handler): Sys
  {
    s.(table := s.table.(rows := rows), handlers := s.handlers[h := r])
  }

  /** The candidates whose dependencies have all completed. */
  function ReadyAmong(rows: Rows, todo: seq<Candidate>): set<TaskId>
  {
    set c | c in todo && AllCompleted(rows, c.deps) :: c.id
  }

  ghost predicate Readable(rows: Rows, todo: seq<Candidate>)
  {
    forall c :: c in todo ==> c.id in rows && forall i :: 0 <= i < |c.deps| ==> c.deps[i] in rows
  }

  lemma ReadStep(s: Sys, h: int, dep: TaskId, todo: seq<Candidate>, checked: nat)
    requires h in s.handlers && s.handlers[h] == Resolving(dep, todo, checked)
    requires todo != [] && checked < |todo[0].deps| && todo[0].deps[checked] in s.table.rows
    ensures Enabled(s, ResolveRead(h))
    ensures Apply(s, ResolveRead(h)) ==
            WithHandler(s, s.table.rows, h, if s.table.rows[todo[0].deps[checked]].state == State.Completed
                                            then Resolving(dep, todo, checked + 1) else Resolving(dep, todo[1..], 0))
  {
  }

  lemma OneMoreRead(rows: Rows, deps: seq<TaskId>, checked: nat)
    requires checked < |deps| && AllCompleted(rows, deps[..checked])
    ensures IsCompleted(rows, deps[checked]) ==> AllCompleted(rows, deps[..checked + 1])
    ensures !IsCompleted(rows, deps[checked]) ==> !AllCompleted(rows, deps)
  {
    assert deps[..checked + 1] == deps[..checked] + [deps[checked]];
    assert deps[checked] in deps;
  }

  lemma SameHandler(s: Sys, h: int, q: Handler, r: Handler)
    ensures WithHandler(WithHandler(s, s.table.rows, h, q), s.table.rows, h, r) == WithHandler(s, s.table.rows, h, r)
  {
    assert s.handlers[h := q][h := r] == s.handlers[h := r];
  }

  /** The reads for one candidate end with all of them passed, or with the candidate dropped. */
  lemma {:induction false} ReadsAlone(s: Sys, h: int, dep: TaskId, todo: seq<Candidate>, checked: nat, u: Sys)
    requires h in s.handlers && s.handlers[h] == Resolving(dep, todo, checked)
    requires todo != [] && checked <= |todo[0].deps| && AllCompleted(s.table.rows, todo[0].deps[..checked])
    requires forall i :: 0 <= i < |todo[0].deps| ==> todo[0].deps[i] in s.table.rows
    requires var rows := s.table.rows;
             Alone(WithHandler(s, rows, h, if AllCompleted(rows, todo[0].deps) then Resolving(dep, todo, |todo[0].deps|)
                                           else Resolving(dep, todo[1..], 0)), h, u)
    ensures Alone(s, h, u)
    decreases |todo[0].deps| - checked
  {
    var rows, deps := s.table.rows, todo[0].deps;
    if checked == |deps| {
      assert deps[..checked] == deps;
      assert WithHandler(s, rows, h, s.handlers[h]) == s;
    } else {
      ReadStep(s, h, dep, todo, checked);
      OneMoreRead(rows, deps, checked);
      if IsCompleted(rows, deps[checked]) {
        var t := WithHandler(s, rows, h, Resolving(dep, todo, checked + 1));
        SameHandler(s, h, Resolving(dep, todo, checked + 1),
                    if AllCompleted(rows, deps) then Resolving(dep, todo, |deps|) else Resolving(dep, todo[1..], 0));
        ReadsAlone(t, h, dep, todo, checked + 1, u);
        First(s, h, ResolveRead(h), t, u);
      } else {
        First(s, h, ResolveRead(h), WithHandler(s, rows, h, Resolving(dep, todo[1..], 0)), u);
      }
    }
  }

  lemma WriteStep(s: Sys, h: int, dep: TaskId, todo: seq<Candidate>, now: Time)
    requires h in s.handlers && todo != [] && s.handlers[h] == Resolving(dep, todo, |todo[0].deps|)
    requires todo[0].id in s.table.rows
    ensures Enabled(s, ResolveWrite(h, now))
    ensures Apply(s, ResolveWrite(h, now)) ==
            WithHandler(s, Unblock(s.table.rows, todo[0].id, now), h, Resolving(dep, todo[1..], 0))
  {
  }

  lemma ReturnStep(s: Sys, h: int, dep: TaskId)
    requires h in s.handlers && (s.handlers[h] == Resolving(dep, [], 0) || s.handlers[h] == Failing(dep, []))
    ensures Enabled(s, Return(h)) && Apply(s, Return(h)) == AtRest(s, h)
  {
  }

  /** Unblocking one and then the rest is unblocking them all; completions stay what they were. */
  lemma UnblockFirst(rows: Rows, todo: seq<Candidate>, now: Time)
    requires todo != [] && todo[0].id in rows
    ensures AllCompleted(rows, todo[0].deps) ==>
              TaskStore.UnblockAll(Unblock(rows, todo[0].id, now), ReadyAmong(Unblock(rows, todo[0].id, now), todo[1..]), now)
              == TaskStore.UnblockAll(rows, ReadyAmong(rows, todo), now)
    ensures !AllCompleted(rows, todo[0].deps) ==> ReadyAmong(rows, todo[1..]) == ReadyAmong(rows, todo)
  {
    var rows' := Unblock(rows, todo[0].id, now);
    assert forall c :: AllCompleted(rows', c) <==> AllCompleted(rows, c) by {
      assert forall d :: IsCompleted(rows', d) <==> IsCompleted(rows, d);
    }
    assert forall c :: c in todo <==> c == todo[0] || c in todo[1..];
    if AllCompleted(rows, todo[0].deps) {
      assert ReadyAmong(rows, todo) == ReadyAmong(rows', todo[1..]) + {todo[0].id};
    } else {
      assert ReadyAmong(rows, todo[1..]) == ReadyAmong(rows, todo);
    }
  }

  /** What the loop over `todo` makes of the rows. */
  function Resolved(s: Sys, h: int, todo: seq<Candidate>, now: Time): Sys
  {
    AtRest(s.(table := s.table.(rows := TaskStore.UnblockAll(s.table.rows, ReadyAmong(s.table.rows, todo), now))), h)
  }

  lemma {:induction false} LoopAlone(s: Sys, h: int, dep: TaskId, todo: seq<Candidate>, now: Time)
    requires h in s.handlers && s.handlers[h] == Resolving(dep, todo, 0) && Readable(s.table.rows, todo)
    ensures Alone(s, h, Resolved(s, h, todo, now))
    decreases |todo|
  {
    var rows, u := s.table.rows, Resolved(s, h, todo, now);
    if todo == [] {
      ReturnStep(s, h, dep);
      assert TaskStore.UnblockAll(rows, ReadyAmong(rows, todo), now) == rows;
      Stays(u, h);
      First(s, h, Return(h), u, u);
    } else {
      UnblockFirst(rows, todo, now);
      if AllCompleted(rows, todo[0].deps) {
        WrittenAlone(s, h, dep, todo, now);
      } else {
        var t := WithHandler(s, rows, h, Resolving(dep, todo[1..], 0));
        LoopAlone(t, h, dep, todo[1..], now);
        assert AtRest(t, h).handlers == AtRest(s, h).handlers;
        assert Resolved(t, h, todo[1..], now) == u;
      }
      ReadsAlone(s, h, dep, todo, 0, u);
    }
  }

  lemma {:induction false} WrittenAlone(s: Sys, h: int, dep: TaskId, todo: seq<Candidate>, now: Time)
    requires h in s.handlers && s.handlers[h] == Resolving(dep, todo, 0) && Readable(s.table.rows, todo)
    requires todo != [] && AllCompleted(s.table.rows, todo[0].deps)
    ensures Alone(WithHandler(s, s.table.rows, h, Resolving(dep, todo, |todo[0].deps|)), h, Resolved(s, h, todo, now))
    decreases |todo|, 0
  {
    var rows := s.table.rows;
    var read := WithHandler(s, rows, h, Resolving(dep, todo, |todo[0].deps|));
    assert todo[0] in todo;
    WriteStep(read, h, dep, todo, now);
    var t := WithHandler(s, Unblock(rows, todo[0].id, now), h, Resolving(dep, todo[1..], 0));
    assert Apply(read, ResolveWrite(h, now)) == t;
    LoopAlone(t, h, dep, todo[1..], now);
    UnblockFirst(rows, todo, now);
    assert AtRest(t, h).handlers == AtRest(s, h).handlers;
    assert Resolved(t, h, todo[1..], now) == Resolved(s, h, todo, now);
    First(read, h, ResolveWrite(h, now), t, Resolved(s, h, todo, now));
  }

  /** The rows of `ids`, in some order. */
  lemma {:induction false} AnswerFor(rows: Rows, ids: set<TaskId>) returns (found: seq<Candidate>)
    requires ids <= rows.Keys
    ensures forall c :: c in found <==> c.id in ids && c.deps == rows[c.id].dependsOn
    ensures forall i, j :: 0 <= i < j < |found| ==> found[i].id != found[j].id
    decreases |ids|
  {
    TaskStore.SomeMember(ids);
    if ids == {} {
      found := [];
    } else {
      var id :| id in ids;
      var others := AnswerFor(rows, ids - {id});
      assert forall i :: 0 <= i < |others| ==> others[i] in others;
      found := [Candidate(id, rows[id].dependsOn)] + others;
    }
  }

  /** The query of a resolution always has an answer, of just the pending and blocked rows that list the
    * dependency. */
  lemma QueryHasAnswer(s: Sys, h: int)
    requires h in s.handlers && s.handlers[h].ResolveStart?
    ensures exists found: seq<Candidate> :: Enabled(s, ResolveQuery(h, found))
    ensures forall found: seq<Candidate> :: Enabled(s, ResolveQuery(h, found)) ==>
              forall id :: (exists c :: c in found && c.id == id) <==>
                             id in s.table.rows && s.table.rows[id].state == State.Pending && s.table.rows[id].blocked
                             && s.handlers[h].dep in s.table.rows[id].dependsOn
  {
    var rows, dep := s.table.rows, s.handlers[h].dep;
    var found := AnswerFor(rows, set id | id in rows && WaitsOn(rows[id], dep));
    assert QueryAnswer(rows, dep, found);
    assert Enabled(s, ResolveQuery(h, found));
  }

  /** A resolution left to itself unblocks exactly the waiting tasks whose dependencies have all completed,
    * as `TaskStore.Store.ResolveDeps` does, and returns. */
  lemma ResolvingAlone(s: Sys, h: int, dep: TaskId, found: seq<Candidate>, now: Time)
    requires h in s.handlers && s.handlers[h] == ResolveStart(dep) && QueryAnswer(s.table.rows, dep, found)
    requires forall id, d :: id in s.table.rows && d in s.table.rows[id].dependsOn ==> d in s.table.rows
    ensures Alone(s, h, AtRest(s.(table := s.table.(
                          rows := TaskStore.UnblockAll(s.table.rows, TaskStore.Ready(s.table.rows, dep), now))), h))
  {
    var rows := s.table.rows;
    var t := WithHandler(s, rows, h, Resolving(dep, found, 0));
    assert Apply(s, ResolveQuery(h, found)) == t;
    FoundAreReadable(rows, dep, found);
    LoopAlone(t, h, dep, found, now);
    FoundAreReady(rows, dep, found);
    assert AtRest(t, h).handlers == AtRest(s, h).handlers;
    First(s, h, ResolveQuery(h, found), t, Resolved(t, h, found, now));
  }

  lemma FoundAreReadable(rows: Rows, dep: TaskId, found: seq<Candidate>)
    requires QueryAnswer(rows, dep, found)
    requires forall id, d :: id in rows && d in rows[id].dependsOn ==> d in rows
    ensures Readable(rows, found)
  {
    forall c | c in found
      ensures c.id in rows && forall i :: 0 <= i < |c.deps| ==> c.deps[i] in rows
    {
      assert c.deps == rows[c.id].dependsOn;
      forall i | 0 <= i < |c.deps|
        ensures c.deps[i] in rows
      {
        var d := c.deps[i];
        assert d in c.deps;
      }
    }
  }

  lemma FoundAreReady(rows: Rows, dep: TaskId, found: seq<Candidate>)
    requires QueryAnswer(rows, dep, found)
    ensures ReadyAmong(rows, found) == TaskStore.Ready(rows, dep)
  {
    forall id | id in TaskStore.Ready(rows, dep)
      ensures id in ReadyAmong(rows, found)
    {
      assert Candidate(id, rows[id].dependsOn) in found;
    }
  }

  // ---------------------------------------------------------------- FailDependents

  function Elements(ids: seq<TaskId>): set<TaskId> { set id | id in ids }

  function AllFailed(s: Sys, h: int, ids: seq<TaskId>, now: Time): Sys
  {
    AtRest(s.(table := s.table.(rows := TaskStore.FailAll(s.table.rows, Elements(ids), now))), h)
  }

  lemma FailFirst(rows: Rows, ids: seq<TaskId>, now: Time)
    requires ids != [] && ids[0] in rows
    ensures TaskStore.FailAll(FailDependency(rows, ids[0], now), Elements(ids[1..]), now)
            == TaskStore.FailAll(rows, Elements(ids), now)
  {
    assert forall id :: id in ids <==> id == ids[0] || id in ids[1..];
  }

  lemma {:induction false} FailLoopAlone(s: Sys, h: int, dep: TaskId, ids: seq<TaskId>, now: Time)
    requires h in s.handlers && s.handlers[h] == Failing(dep, ids) && forall id :: id in ids ==> id in s.table.rows
    ensures Alone(s, h, AllFailed(s, h, ids, now))
    decreases |ids|
  {
    var rows, u := s.table.rows, AllFailed(s, h, ids, now);
    if ids == [] {
      ReturnStep(s, h, dep);
      assert TaskStore.FailAll(rows, Elements(ids), now) == rows;
      Stays(u, h);
      First(s, h, Return(h), u, u);
    } else {
      var t := WithHandler(s, FailDependency(rows, ids[0], now), h, Failing(dep, ids[1..]));
      assert Apply(s, FailWrite(h, now)) == t;
      FailLoopAlone(t, h, dep, ids[1..], now);
      FailFirst(rows, ids, now);
      assert AtRest(t, h).handlers == AtRest(s, h).handlers;
      First(s, h, FailWrite(h, now), t, u);
    }
  }

  lemma SameElements(ids: seq<TaskId>, all: set<TaskId>)
    requires forall id :: id in ids <==> id in all
    ensures Elements(ids) == all
  {
    assert forall id :: id in Elements(ids) <==> id in all;
  }

  /** A failure left to itself fails exactly the waiting tasks, as `TaskStore.Store.FailDependents` does. */
  lemma FailingAlone(s: Sys, h: int, dep: TaskId, ids: seq<TaskId>, now: Time)
    requires h in s.handlers && s.handlers[h] == FailStart(dep)
    requires forall id :: id in ids <==> id in TaskStore.Waiting(s.table.rows, dep)
    ensures Alone(s, h, AtRest(s.(table := s.table.(
                          rows := TaskStore.FailAll(s.table.rows, TaskStore.Waiting(s.table.rows, dep), now))), h))
  {
    var t := WithHandler(s, s.table.rows, h, Failing(dep, ids));
    assert Apply(s, FailQuery(h, ids)) == t;
    FailLoopAlone(t, h, dep, ids, now);
    SameElements(ids, TaskStore.Waiting(s.table.rows, dep));
    assert AtRest(t, h).handlers == AtRest(s, h).handlers;
    First(s, h, FailQuery(h, ids), t, AllFailed(t, h, ids, now));
  }

  // ---------------------------------------------------------------- store calls

  /** The calls that succeed are steps with the store's effect: a completion and a failure also start their
    * handler, and a restart drops all handlers. */
  lemma CallsAreSteps(s: Sys, id: TaskId, token: Token, text: string, h: int, now: Time)
    requires HoldsClaim(s.table.rows, id, token) && h !in s.handlers
    ensures Enabled(s, Complete(h, id, token, text, now))
    ensures Apply(s, Complete(h, id, token, text, now)) ==
            WithHandler(s, CompleteRow(s.table.rows, id, text, now), h, ResolveStart(id)).(log := s.log + [DidComplete(id)])
    ensures Enabled(s, Action.Fail(h, id, token, text, now))
    ensures Apply(s, Action.Fail(h, id, token, text, now)) ==
            WithHandler(s, FailRow(s.table.rows, id, text, now), h, FailStart(id))
    ensures Enabled(s, Heartbeat(id, token, now))
    ensures Apply(s, Heartbeat(id, token, now)) == s.(table := s.table.(rows := ExtendLease(s.table.rows, id, now)))
  {
  }

  lemma ClaimIsStep(s: Sys, worker: string, f: ClaimFilter, id: TaskId, token: Token, now: Time)
    requires Selected(s.table.rows, f, id) && token !in s.issued
    ensures Enabled(s, Claim(worker, f, id, token, now))
    ensures Apply(s, Claim(worker, f, id, token, now)) ==
            s.(table := s.table.(rows := ClaimRow(s.table.rows, id, worker, token, now)),
               log := s.log + [DidClaim(id, token)], issued := s.issued + {token})
  {
  }

  lemma SweepsAreSteps(s: Sys, now: Time)
    ensures Enabled(s, ExpireTasks(now))
            && Apply(s, ExpireTasks(now)) == s.(table := s.table.(rows := ExpireTtl(s.table.rows, now)))
    ensures Enabled(s, LeaseSweep(now))
            && Apply(s, LeaseSweep(now)).table == s.table.(rows := SweepLeases(s.table.rows, now))
            && Apply(s, LeaseSweep(now)).handlers == s.handlers
  {
  }

  lemma RequeuesAreSteps(s: Sys, owner: string, now: Time)
    ensures Enabled(s, Disconnect(owner, now))
            && Apply(s, Disconnect(owner, now)) == s.(table := s.table.(rows := RequeueOwner(s.table.rows, owner, now)))
    ensures Enabled(s, Restart(now))
            && Apply(s, Restart(now)).table == s.table.(rows := RequeueClaims(s.table.rows, now))
            && Apply(s, Restart(now)).handlers == map[]
  {
  }

  lemma EditsAreSteps(s: Sys, p: CreateParams, id: TaskId, priority: Option<int>, tags: Option<seq<string>>, now: Time)
    ensures TtlAccepted(p) && !HasKey(s.table.rows, p.key) ==>
              Enabled(s, Create(p, now)) && Apply(s, Create(p, now)).table == Insert(s.table, p, now)
              && Apply(s, Create(p, now)).handlers == s.handlers
    ensures id in s.table.rows && s.table.rows[id].state in {State.Pending, State.Claimed} ==>
              Enabled(s, Cancel(id, now)) && Apply(s, Cancel(id, now)) == s.(table := s.table.(rows := CancelRow(s.table.rows, id, now)))
    ensures id in s.table.rows ==>
              Enabled(s, Update(id, priority, tags, now))
              && Apply(s, Update(id, priority, tags, now))
                 == s.(table := s.table.(rows := SetPriorityAndTags(s.table.rows, id, priority, tags, now)))
  {
  }
}
