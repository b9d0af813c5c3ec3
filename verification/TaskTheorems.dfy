/** What the invariant gives for whole runs: execution order, absorbing states, claim tokens, the
  * retry bound and wakeups. */
module TaskTheorems {
  import opened Wrappers
  import opened TaskTable
  import opened TaskRuns
  import opened TaskInvariant
  import DS = DependencySearch

  // ---------------------------------------------------------------- from state to state

  /** What a state can become in any number of steps. */
  predicate Later(a: State, b: State)
  {
    match a
    case Pending => true
    case Claimed => true
    case Completed => b == Completed
    case Failed => b == Failed
    case Canceled => b == Canceled || b == Failed
  }

  lemma RowLater(s: Sys, a: Action, id: TaskId)
    requires Sound(s.table) && HandlersSound(s) && Enabled(s, a) && id in s.table.rows
    ensures id in NextRows(s, a) && Later(s.table.rows[id].state, NextRows(s, a)[id].state)
    ensures NextRows(s, a)[id].dependsOn == s.table.rows[id].dependsOn
    ensures NextRows(s, a)[id].blocked ==> s.table.rows[id].blocked
  {
    RowMoves(s, a, id);
  }

  /** Rows stay, keep their dependencies, and completed, failed and canceled are (nearly) final. */
  lemma {:induction false} RowsOverRuns(states: seq<Sys>, actions: seq<Action>, i: nat, j: nat, id: TaskId)
    requires Run(states, actions) && i <= j < |states| && id in states[i].table.rows
    ensures id in states[j].table.rows
    ensures Later(states[i].table.rows[id].state, states[j].table.rows[id].state)
    ensures states[j].table.rows[id].dependsOn == states[i].table.rows[id].dependsOn
    ensures states[j].table.rows[id].blocked ==> states[i].table.rows[id].blocked
    decreases j
  {
    if i < j {
      RowsOverRuns(states, actions, i, j - 1, id);
      RunsKeepInv(states, actions, j - 1);
      RowLater(states[j - 1], actions[j - 1], id);
    }
  }

  lemma {:induction false} LogGrows(states: seq<Sys>, actions: seq<Action>, i: nat, j: nat)
    requires Run(states, actions) && i <= j < |states|
    ensures states[i].log <= states[j].log
    decreases j
  {
    if i < j {
      LogGrows(states, actions, i, j - 1);
      assert states[j] == Apply(states[j - 1], actions[j - 1]);
      assert states[j - 1].log <= states[j].log;
    }
  }

  /** A second successful Complete of the same task never happens, in any interleaving. */
  lemma CompletesAtMostOnce(states: seq<Sys>, actions: seq<Action>, i: nat, j: nat)
    requires Run(states, actions) && i < j < |actions| && actions[i].Complete? && actions[j].Complete?
    ensures actions[i].id != actions[j].id
  {
    var id := actions[i].id;
    assert states[i + 1] == Apply(states[i], actions[i]);
    assert states[i + 1].table.rows[id].state == Completed;
    RowsOverRuns(states, actions, i + 1, j, id);
  }

  // ---------------------------------------------------------------- execution order

  lemma PathTail(rows: Rows, from: TaskId, to: TaskId, path: seq<TaskId>)
    requires DS.Path(rows, from, to, path) && |path| > 1
    ensures DS.Path(rows, path[1], to, path[1..])
  {
  }

  /** Not only its direct dependencies: everything a task transitively depends on completed before
    * any of its claims and before its completion. */
  lemma {:induction false} TransitiveDepsFirst(s: Sys, k: nat, path: seq<TaskId>, d: TaskId)
    requires LogOrder(s.log, s.table.rows) && k < |s.log| && DS.Path(s.table.rows, s.log[k].id, d, path) && |path| > 1
    ensures DidComplete(d) in s.log[..k]
    decreases |path|
  {
    var x := path[1];
    assert x in DS.Deps(s.table.rows, path[0]);
    assert DidComplete(x) in s.log[..k];
    if |path| > 2 {
      var j :| 0 <= j < k && s.log[j] == DidComplete(x);
      PathTail(s.table.rows, s.log[k].id, d, path);
      TransitiveDepsFirst(s, j, path[1..], d);
      assert s.log[..j] <= s.log[..k];
      assert DidComplete(d) in s.log[..j];
    } else {
      assert d == x;
    }
  }

  /** A task on a dependency cycle is never claimed: each of its events would need an earlier one. */
  lemma {:induction false} CyclesNeverRun(s: Sys, id: TaskId, path: seq<TaskId>, k: nat)
    requires LogOrder(s.log, s.table.rows) && DS.Path(s.table.rows, id, id, path) && |path| > 1
    requires k < |s.log|
    ensures s.log[k].id != id
  {
    if s.log[k].id == id {
      TransitiveDepsFirst(s, k, path, id);
      var j :| 0 <= j < k && s.log[j] == DidComplete(id);
      CyclesNeverRun(s, id, path, j);
    }
  }

  lemma PathsSurvive(states: seq<Sys>, actions: seq<Action>, i: nat, j: nat, a: TaskId, b: TaskId, path: seq<TaskId>)
    requires Run(states, actions) && i <= j < |states| && DS.Path(states[i].table.rows, a, b, path)
    ensures DS.Path(states[j].table.rows, a, b, path)
  {
    forall m | 0 < m < |path|
      ensures path[m] in DS.Deps(states[j].table.rows, path[m - 1])
    {
      assert path[m] in DS.Deps(states[i].table.rows, path[m - 1]);
      RowsOverRuns(states, actions, i, j, path[m - 1]);
    }
  }

  lemma {:induction false} LoggedWasDone(states: seq<Sys>, actions: seq<Action>, k: nat, d: TaskId)
    requires Run(states, actions) && k < |states| && DidComplete(d) in states[k].log
    ensures exists j :: 0 <= j < k && actions[j].Complete? && actions[j].id == d
  {
    assert k > 0;
    assert states[k] == Apply(states[k - 1], actions[k - 1]);
    if DidComplete(d) in states[k - 1].log {
      LoggedWasDone(states, actions, k - 1, d);
    } else {
      assert actions[k - 1].Complete? && actions[k - 1].id == d;
    }
  }

  /** In every run, a successful Claim or Complete of a task comes after a successful Complete of each of
    * its transitive dependencies. */
  lemma DependenciesCompleteFirst(states: seq<Sys>, actions: seq<Action>, k: nat, d: TaskId, path: seq<TaskId>)
    requires Run(states, actions) && k < |actions| && (actions[k].Claim? || actions[k].Complete?)
    requires DS.Path(states[k].table.rows, actions[k].id, d, path) && |path| > 1
    ensures exists j :: 0 <= j < k && actions[j].Complete? && actions[j].id == d
  {
    var before, after := states[k], states[k + 1];
    assert after == Apply(before, actions[k]);
    RunsKeepInv(states, actions, k + 1);
    PathsSurvive(states, actions, k, k + 1, actions[k].id, d, path);
    TransitiveDepsFirst(after, |before.log|, path, d);
    assert after.log[..|before.log|] == before.log;
    LoggedWasDone(states, actions, k, d);
  }

  /** In a run, a task with a failed or canceled task anywhere among its transitive dependencies is
    * never claimed, neither before nor after that failure; nor is a task on a cycle. */
  lemma DoomedNeverClaimed(states: seq<Sys>, actions: seq<Action>, i: nat, k: nat, d: TaskId, path: seq<TaskId>)
    requires Run(states, actions) && i < |states| && k < |actions| && actions[k].Claim?
    requires DS.Path(states[i].table.rows, actions[k].id, d, path) && |path| > 1
    ensures d != actions[k].id
    ensures d in states[i].table.rows ==> states[i].table.rows[d].state !in {Failed, Canceled}
  {
    var id, n := actions[k].id, |actions|;
    var last := states[n];
    assert states[k + 1] == Apply(states[k], actions[k]);
    var e := DidClaim(id, actions[k].token);
    assert states[k + 1].log[|states[k].log|] == e;
    LogGrows(states, actions, k + 1, n);
    var m := |states[k].log|;
    assert last.log[m] == e;
    RunsKeepInv(states, actions, n);
    PathsSurvive(states, actions, i, n, id, d, path);
    TransitiveDepsFirst(last, m, path, d);
    assert DidComplete(d) in last.log;
    if d == id {
      CyclesNeverRun(last, id, path, m);
    }
    if d in states[i].table.rows {
      RowsOverRuns(states, actions, i, n, d);
    }
  }

  // ---------------------------------------------------------------- claim tokens

  /** The claim behind a held token: it was drawn by a Claim of this very task, and the task has
    * stayed claimed under that token ever since. */
  ghost predicate ClaimBehind(states: seq<Sys>, actions: seq<Action>, id: TaskId, token: Token, c: nat, k: nat)
    requires |states| == |actions| + 1 && k < |states|
  {
    && c < k
    && actions[c].Claim? && actions[c].id == id && actions[c].token == token
    && forall m :: c < m <= k ==> HoldsClaim(states[m].table.rows, id, token)
  }

  lemma HeldBefore(s: Sys, a: Action, id: TaskId, token: Token)
    requires Enabled(s, a) && HoldsClaim(NextRows(s, a), id, token)
    ensures (a.Claim? && a.id == id && a.token == token) || HoldsClaim(s.table.rows, id, token)
  {
    if !a.Claim? {
      OnlyClaimClaims(s, a, id);
    }
  }

  lemma HeldBeforeLast(states: seq<Sys>, actions: seq<Action>, id: TaskId, token: Token, k: nat)
    requires Run(states, actions) && k < |states| && HoldsClaim(states[k].table.rows, id, token)
    ensures k > 0
    ensures (actions[k - 1].Claim? && actions[k - 1].id == id && actions[k - 1].token == token)
            || HoldsClaim(states[k - 1].table.rows, id, token)
  {
    assert k > 0;
    assert states[k] == Apply(states[k - 1], actions[k - 1]);
    HeldBefore(states[k - 1], actions[k - 1], id, token);
  }

  lemma StillBehind(states: seq<Sys>, actions: seq<Action>, id: TaskId, token: Token, c: nat, k: nat)
    requires |states| == |actions| + 1 && 0 < k < |states| && HoldsClaim(states[k].table.rows, id, token)
    requires ClaimBehind(states, actions, id, token, c, k - 1)
    ensures ClaimBehind(states, actions, id, token, c, k)
  {
  }

  lemma {:induction false} HeldTokenIsCurrent(states: seq<Sys>, actions: seq<Action>, id: TaskId, token: Token, k: nat) returns (c: nat)
    requires Run(states, actions) && k < |states| && HoldsClaim(states[k].table.rows, id, token)
    ensures ClaimBehind(states, actions, id, token, c, k)
  {
    HeldBeforeLast(states, actions, id, token, k);
    if actions[k - 1].Claim? && actions[k - 1].id == id && actions[k - 1].token == token {
      c := k - 1;
    } else {
      c := HeldTokenIsCurrent(states, actions, id, token, k - 1);
      StillBehind(states, actions, id, token, c, k);
    }
  }

  predicate UsesToken(a: Action) { a.Complete? || a.Fail? || a.Heartbeat? }

  /** Complete, Fail and Heartbeat succeed only with the token of the current, unfinished claim. */
  lemma OnlyCurrentClaimSucceeds(states: seq<Sys>, actions: seq<Action>, k: nat) returns (c: nat)
    requires Run(states, actions) && k < |actions| && UsesToken(actions[k])
    ensures ClaimBehind(states, actions, actions[k].id, actions[k].token, c, k)
  {
    c := HeldTokenIsCurrent(states, actions, actions[k].id, actions[k].token, k);
  }

  /** A token that was issued and that no claimed task holds. */
  ghost predicate Dead(s: Sys, token: Token)
  {
    token in s.issued && forall id :: !HoldsClaim(s.table.rows, id, token)
  }

  lemma {:induction false} DeadTokensStayDead(states: seq<Sys>, actions: seq<Action>, i: nat, j: nat, token: Token)
    requires Run(states, actions) && i <= j < |states| && Dead(states[i], token)
    ensures Dead(states[j], token)
    decreases j
  {
    if i < j {
      DeadTokensStayDead(states, actions, i, j - 1, token);
      var s, a := states[j - 1], actions[j - 1];
      forall id
        ensures !HoldsClaim(states[j].table.rows, id, token)
      {
        if HoldsClaim(states[j].table.rows, id, token) {
          TokenOrigin(s, a, id);
          assert !HoldsClaim(s.table.rows, id, token);
          if !a.Claim? {
            OnlyClaimClaims(s, a, id);
          }
        }
      }
    }
  }

  lemma EndedClaimIsDead(s: Sys, a: Action, id: TaskId, token: Token)
    requires TokensSound(s) && Enabled(s, a)
    requires HoldsClaim(s.table.rows, id, token) && !HoldsClaim(Apply(s, a).table.rows, id, token)
    ensures Dead(Apply(s, a), token)
  {
    forall x
      ensures !HoldsClaim(Apply(s, a).table.rows, x, token)
    {
      if HoldsClaim(Apply(s, a).table.rows, x, token) {
        TokenOrigin(s, a, x);
      }
    }
  }

  /** Every earlier token of a task is dead: after the claim it belonged to ended, by any action, no
    * Complete, Fail or Heartbeat with it succeeds on any task, ever. */
  lemma EndedClaimNeverSucceeds(states: seq<Sys>, actions: seq<Action>, i: nat, j: nat, id: TaskId, token: Token)
    requires Run(states, actions) && i < j < |actions|
    requires HoldsClaim(states[i].table.rows, id, token) && !HoldsClaim(states[i + 1].table.rows, id, token)
    ensures UsesToken(actions[j]) ==> actions[j].token != token
  {
    RunsKeepInv(states, actions, i);
    EndedClaimIsDead(states[i], actions[i], id, token);
    DeadTokensStayDead(states, actions, i + 1, j, token);
  }

  // ---------------------------------------------------------------- retries

  /** How often a lease sweep sent `id` from claimed back to pending, counted along the run itself. */
  ghost function LeaseReturns(states: seq<Sys>, actions: seq<Action>, id: TaskId, n: nat): nat
    requires Run(states, actions) && n < |states|
  {
    if n == 0 then 0
    else
      LeaseReturns(states, actions, id, n - 1) +
      (if LeaseReturn(states[n - 1], actions[n - 1], states[n], id) then 1 else 0)
  }

  /** An action returns `id` from claimed to pending by lease expiry. */
  ghost predicate LeaseReturn(s: Sys, a: Action, s': Sys, id: TaskId)
  {
    && a.LeaseSweep?
    && id in s.table.rows && s.table.rows[id].state == Claimed
    && id in s'.table.rows && s'.table.rows[id].state == Pending
  }

  lemma LeaseReturnCounts(s: Sys, a: Action, id: TaskId)
    requires Sound(s.table) && ExpiriesSound(s) && Enabled(s, a)
    ensures id in s.table.rows ==>
              id in NextExpiries(s, a)
              && NextExpiries(s, a)[id] == s.expiries[id] + if LeaseReturn(s, a, Apply(s, a), id) then 1 else 0
    ensures id !in s.table.rows && id in NextRows(s, a) ==> id in NextExpiries(s, a) && NextExpiries(s, a)[id] == 0
  {
  }

  lemma LastCounted(states: seq<Sys>, actions: seq<Action>, id: TaskId, n: nat)
    requires Run(states, actions) && 0 < n < |states|
    ensures id in states[n - 1].table.rows ==>
              id in states[n].table.rows && id in states[n - 1].expiries && id in states[n].expiries
              && states[n].expiries[id] == states[n - 1].expiries[id]
                                           + if LeaseReturn(states[n - 1], actions[n - 1], states[n], id) then 1 else 0
    ensures id !in states[n - 1].table.rows && id in states[n].table.rows ==>
              id in states[n].expiries && states[n].expiries[id] == 0
  {
    var s, a := states[n - 1], actions[n - 1];
    RunsKeepInv(states, actions, n - 1);
    assert states[n] == Apply(s, a);
    LeaseReturnCounts(s, a, id);
    if id in s.table.rows {
      RowMoves(s, a, id);
    }
  }

  lemma {:induction false} LeaseReturnsCounted(states: seq<Sys>, actions: seq<Action>, id: TaskId, n: nat)
    requires Run(states, actions) && n < |states|
    ensures id in states[n].table.rows ==>
              id in states[n].expiries && states[n].expiries[id] == LeaseReturns(states, actions, id, n)
    ensures id !in states[n].table.rows ==> LeaseReturns(states, actions, id, n) == 0
  {
    if n > 0 {
      LeaseReturnsCounted(states, actions, id, n - 1);
      LastCounted(states, actions, id, n);
    }
  }

  /** However disconnects, restarts and lease expiry are mixed, lease expiry sends a task back to
    * pending at most max(0, max_retries - 1) times. */
  lemma LeaseReturnsBounded(states: seq<Sys>, actions: seq<Action>, id: TaskId, n: nat)
    requires Run(states, actions) && n < |states| && id in states[n].table.rows
    ensures LeaseReturns(states, actions, id, n) <= Max(0, states[n].table.rows[id].maxRetries - 1)
  {
    LeaseReturnsCounted(states, actions, id, n);
    RunsKeepInv(states, actions, n);
  }

  // ---------------------------------------------------------------- wakeups

  predicate Resolves(h: Handler, d: TaskId) { (h.ResolveStart? || h.Resolving?) && h.dep == d }

  ghost predicate ResolveInProgress(s: Sys)
  {
    exists h :: h in s.handlers && Resolves(s.handlers[h], s.handlers[h].dep)
  }

  /** A ResolveDeps(d) in progress ends with this action, and not by returning. */
  ghost predicate CutShort(s: Sys, a: Action, d: TaskId)
    requires Enabled(s, a)
  {
    exists h :: h in s.handlers && Resolves(s.handlers[h], d) && h !in NextHandlers(s, a) && !(a.Return? && a.h == h)
  }

  lemma LostStep(s: Sys, a: Action, d: TaskId)
    requires Enabled(s, a)
    ensures d in NextLost(s, a) <==> d in s.lost || CutShort(s, a, d)
  {
    if a.ResolveRead? && DepToRead(s.handlers[a.h]) !in s.table.rows && d == s.handlers[a.h].dep {
      assert Resolves(s.handlers[a.h], d) && a.h !in NextHandlers(s, a);
    }
  }

  /** `lost` is what it says: the ids whose resolution was cut short in the run so far. */
  lemma {:induction false} LostExactly(states: seq<Sys>, actions: seq<Action>, n: nat, d: TaskId)
    requires Run(states, actions) && n < |states|
    ensures d in states[n].lost <==> exists j :: 0 <= j < n && CutShort(states[j], actions[j], d)
  {
    if n > 0 {
      LostExactly(states, actions, n - 1, d);
      LostStep(states[n - 1], actions[n - 1], d);
      assert states[n] == Apply(states[n - 1], actions[n - 1]);
    }
  }

  ghost predicate DepsExist(rows: Rows)
  {
    forall id, d :: id in rows && d in rows[id].dependsOn ==> d in rows
  }

  lemma CutShortStep(s: Sys, a: Action, d: TaskId)
    requires Enabled(s, a) && CutShort(s, a, d)
    ensures (a.Restart? && ResolveInProgress(s)) || (a.ResolveRead? && DepToRead(s.handlers[a.h]) !in s.table.rows)
  {
  }

  lemma MissingDepIsListed(rows: Rows, r: Handler)
    requires HandlerSound(rows, r) && r.Resolving? && r.todo != [] && r.checked < |r.todo[0].deps|
    ensures exists id :: id in rows && DepToRead(r) in rows[id].dependsOn
  {
    assert r.todo[0] in r.todo && r.todo[0].deps == rows[r.todo[0].id].dependsOn;
  }

  /** A resolution is cut short only by a restart that drops its handler, or by reading a dependency that
    * does not exist. */
  lemma CutShortOnlyBy(s: Sys, a: Action, d: TaskId)
    requires HandlersSound(s) && Enabled(s, a) && CutShort(s, a, d)
    ensures (a.Restart? && ResolveInProgress(s)) || (a.ResolveRead? && !DepsExist(s.table.rows))
  {
    CutShortStep(s, a, d);
    if a.ResolveRead? {
      MissingDepIsListed(s.table.rows, s.handlers[a.h]);
    }
  }

  /** Every task was created with dependencies that existed, and no restart interrupted a resolution. */
  ghost predicate Undisturbed(states: seq<Sys>, actions: seq<Action>)
  {
    && Run(states, actions)
    && forall k :: 0 <= k < |actions| ==>
                     && (actions[k].Restart? ==> !ResolveInProgress(states[k]))
                     && (actions[k].Create? ==> forall d :: d in actions[k].p.dependsOn ==> d in states[k].table.rows)
  }

  lemma OnlyCreateAddsRows(s: Sys, a: Action, id: TaskId)
    requires Enabled(s, a) && id in NextRows(s, a) && id !in s.table.rows
    ensures a.Create? && id == s.table.lastId + 1 && NextRows(s, a)[id].dependsOn == a.p.dependsOn
  {
  }

  lemma EdgesStayDown(s: Sys, a: Action)
    requires Sound(s.table) && HandlersSound(s) && Enabled(s, a) && DepsExist(s.table.rows) && DS.PointsDown(s.table.rows)
    requires a.Create? ==> forall d :: d in a.p.dependsOn ==> d in s.table.rows
    ensures DepsExist(NextRows(s, a)) && DS.PointsDown(NextRows(s, a))
  {
    ActionEvolves(s, a);
    var rows, rows' := s.table.rows, NextRows(s, a);
    forall id, d | id in rows' && d in rows'[id].dependsOn
      ensures d in rows' && d < id
    {
      if id in rows {
        assert RowMove(rows[id], rows'[id]);
      } else {
        OnlyCreateAddsRows(s, a, id);
      }
    }
  }

  /** Then no ResolveDeps is ever cut short, and all edges point to smaller ids. */
  lemma {:induction false} UndisturbedLosesNothing(states: seq<Sys>, actions: seq<Action>, n: nat)
    requires Undisturbed(states, actions) && n < |states|
    ensures states[n].lost == {}
    ensures DepsExist(states[n].table.rows)
    ensures DS.PointsDown(states[n].table.rows)
  {
    if n > 0 {
      var s, a := states[n - 1], actions[n - 1];
      UndisturbedLosesNothing(states, actions, n - 1);
      RunsKeepInv(states, actions, n - 1);
      assert states[n] == Apply(s, a);
      EdgesStayDown(s, a);
      forall d
        ensures d !in states[n].lost
      {
        LostStep(s, a, d);
        if CutShort(s, a, d) {
          CutShortOnlyBy(s, a, d);
        }
      }
    }
  }

  lemma {:induction false} AwaitingSinceCreation(states: seq<Sys>, actions: seq<Action>, k: nat, n: nat)
    requires Run(states, actions) && k < n < |states| && actions[k].Create?
    requires !TooLate(states[k], actions[k].p.dependsOn)
    ensures states[k].table.lastId + 1 in states[n].awaiting
    decreases n
  {
    assert states[n] == Apply(states[n - 1], actions[n - 1]);
    if k < n - 1 {
      AwaitingSinceCreation(states, actions, k, n - 1);
    }
  }

  lemma CreatedRow(states: seq<Sys>, actions: seq<Action>, k: nat, n: nat)
    requires Run(states, actions) && k < n < |states| && actions[k].Create?
    ensures var id := states[k].table.lastId + 1;
            id in states[n].table.rows && states[n].table.rows[id].dependsOn == actions[k].p.dependsOn
  {
    var id := states[k].table.lastId + 1;
    assert states[k + 1] == Apply(states[k], actions[k]);
    assert states[k + 1].table.rows[id] == NewTask(actions[k].p, actions[k].now);
    RowsOverRuns(states, actions, k + 1, n, id);
  }

  /** In any run, once no resolution is in progress: a task not created too late is blocked with all its
    * dependencies completed only if the resolution of one of them was cut short. */
  lemma BlockedOnlyIfCutShort(states: seq<Sys>, actions: seq<Action>, k: nat, n: nat)
    requires Run(states, actions) && k < n < |states| && actions[k].Create?
    requires !TooLate(states[k], actions[k].p.dependsOn) && !ResolveInProgress(states[n])
    requires Overdue(states[n].table.rows, states[k].table.lastId + 1)
    ensures exists d, j :: d in actions[k].p.dependsOn && 0 <= j < n && CutShort(states[j], actions[j], d)
  {
    var id, deps := states[k].table.lastId + 1, actions[k].p.dependsOn;
    AwaitingSinceCreation(states, actions, k, n);
    CreatedRow(states, actions, k, n);
    RunsKeepInv(states, actions, n);
    forall h | h in states[n].handlers
      ensures !WillVisit(states[n].handlers[h], id, deps)
    {
      assert !Resolves(states[n].handlers[h], states[n].handlers[h].dep);
    }
    var d :| d in deps && d in states[n].lost;
    LostExactly(states, actions, n, d);
  }

  /** No lost wakeup: once every Complete has had its ResolveDeps finish, no task that was not created too
    * late is still blocked with all its dependencies completed; a task created with an uncompleted
    * dependency, or while the query of one is still to come, was not created too late. */
  lemma NoLostWakeup(states: seq<Sys>, actions: seq<Action>, k: nat, n: nat)
    requires Undisturbed(states, actions) && k < n < |states| && actions[k].Create?
    requires !TooLate(states[k], actions[k].p.dependsOn)
    requires !ResolveInProgress(states[n])
    ensures !Overdue(states[n].table.rows, states[k].table.lastId + 1)
  {
    if Overdue(states[n].table.rows, states[k].table.lastId + 1) {
      BlockedOnlyIfCutShort(states, actions, k, n);
      var d, j :| d in actions[k].p.dependsOn && 0 <= j < n && CutShort(states[j], actions[j], d);
      LostExactly(states, actions, n, d);
      UndisturbedLosesNothing(states, actions, n);
    }
  }

  // ---------------------------------------------------------------- tasks created too late

  /** Blocked, with all dependencies completed and no handler on the way. */
  ghost predicate Stranded(s: Sys, id: TaskId)
  {
    && id in s.table.rows && s.table.rows[id].blocked
    && AllCompleted(s.table.rows, s.table.rows[id].dependsOn)
    && !Visited(s, id, s.table.rows[id].dependsOn)
  }

  lemma StrandedAtCreation(s: Sys, a: Action)
    requires Inv(s) && Enabled(s, a) && a.Create? && TooLate(s, a.p.dependsOn)
    ensures Stranded(Apply(s, a), s.table.lastId + 1)
  {
    var s', id := Apply(s, a), s.table.lastId + 1;
    assert s'.table.rows[id] == NewTask(a.p, a.now);
    forall h | h in s'.handlers
      ensures !WillVisit(s'.handlers[h], id, a.p.dependsOn)
    {
      assert HandlerSound(s.table.rows, s.handlers[h]);
    }
  }

  lemma StaysStranded(s: Sys, a: Action, id: TaskId)
    requires Inv(s) && Enabled(s, a) && Stranded(s, id)
    ensures Stranded(Apply(s, a), id)
  {
    var s', deps := Apply(s, a), s.table.rows[id].dependsOn;
    RowMoves(s, a, id);
    ActionEvolves(s, a);
    EvolutionKeepsCompleted(s.table.rows, s'.table.rows, deps);
    UnvisitedStaysBlocked(s, a, id);
    forall h | h in s'.handlers
      ensures !WillVisit(s'.handlers[h], id, deps)
    {
      assert h in s.handlers ==> !WillVisit(s.handlers[h], id, deps);
      HandlerStaysAway(s, a, id, h);
    }
  }

  lemma {:induction false} StrandedForever(states: seq<Sys>, actions: seq<Action>, m: nat, n: nat, id: TaskId)
    requires Run(states, actions) && m <= n < |states| && Stranded(states[m], id)
    ensures Stranded(states[n], id)
    decreases n
  {
    if m < n {
      StrandedForever(states, actions, m, n - 1, id);
      RunsKeepInv(states, actions, n - 1);
      StaysStranded(states[n - 1], actions[n - 1], id);
    }
  }

  lemma StrandedFromCreation(states: seq<Sys>, actions: seq<Action>, k: nat, n: nat)
    requires Run(states, actions) && k < n < |states| && actions[k].Create? && TooLate(states[k], actions[k].p.dependsOn)
    ensures Stranded(states[n], states[k].table.lastId + 1)
  {
    RunsKeepInv(states, actions, k);
    StrandedAtCreation(states[k], actions[k]);
    StrandedForever(states, actions, k + 1, n, states[k].table.lastId + 1);
  }

  /** A task created too late is blocked in every later state, so it is never claimed. */
  lemma CreatedTooLateStaysBlocked(states: seq<Sys>, actions: seq<Action>, k: nat, n: nat)
    requires Run(states, actions) && k < n < |states| && actions[k].Create? && TooLate(states[k], actions[k].p.dependsOn)
    ensures var id := states[k].table.lastId + 1;
            && id in states[n].table.rows && states[n].table.rows[id].blocked
            && AllCompleted(states[n].table.rows, actions[k].p.dependsOn)
            && (n < |actions| && actions[n].Claim? ==> actions[n].id != id)
  {
    StrandedFromCreation(states, actions, k, n);
    CreatedRow(states, actions, k, n);
  }

  /** Exactly: once no resolution is in progress, a task still pending is blocked with all its dependencies
    * completed if and only if it was created too late. */
  lemma BlockedExactlyIfTooLate(states: seq<Sys>, actions: seq<Action>, k: nat, n: nat)
    requires Undisturbed(states, actions) && k < n < |states| && actions[k].Create?
    requires !ResolveInProgress(states[n])
    ensures var id := states[k].table.lastId + 1;
            id in states[n].table.rows
            && (states[n].table.rows[id].state == Pending ==>
                  (Overdue(states[n].table.rows, id) <==> TooLate(states[k], actions[k].p.dependsOn)))
  {
    CreatedRow(states, actions, k, n);
    if TooLate(states[k], actions[k].p.dependsOn) {
      StrandedFromCreation(states, actions, k, n);
    } else {
      NoLostWakeup(states, actions, k, n);
    }
  }

  /** Once its dependencies have completed, no handler that was not going to visit a task will. */
  lemma HandlerStaysAway(s: Sys, a: Action, id: TaskId, h: int)
    requires Enabled(s, a) && id in s.table.rows && h in NextHandlers(s, a)
    requires AllCompleted(s.table.rows, s.table.rows[id].dependsOn)
    requires h in s.handlers ==> !WillVisit(s.handlers[h], id, s.table.rows[id].dependsOn)
    ensures !WillVisit(NextHandlers(s, a)[h], id, s.table.rows[id].dependsOn)
  {
  }

  lemma UnvisitedStaysBlocked(s: Sys, a: Action, id: TaskId)
    requires Sound(s.table) && HandlersSound(s) && Enabled(s, a) && id in s.table.rows && s.table.rows[id].blocked
    requires !Visited(s, id, s.table.rows[id].dependsOn)
    ensures id in NextRows(s, a) && NextRows(s, a)[id].blocked
  {
    if a.ResolveWrite? {
      assert !WillVisit(s.handlers[a.h], id, s.table.rows[id].dependsOn) && HandlerSound(s.table.rows, s.handlers[a.h]);
      WritesOnlyVisited(s.table.rows, s.handlers[a.h], id);
    }
  }

  lemma WritesOnlyVisited(rows: Rows, r: Handler, id: TaskId)
    requires HandlerSound(rows, r) && r.Resolving? && r.todo != [] && id in rows
    requires !WillVisit(r, id, rows[id].dependsOn)
    ensures r.todo[0].id != id
  {
    assert r.todo[0] in r.todo && r.todo[0] == Candidate(r.todo[0].id, r.todo[0].deps);
  }
}
