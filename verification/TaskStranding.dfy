/** A run, without a restart and with existing dependencies only, that strands a task: B is created on A
  * after A has completed and its resolution has returned. */
module TaskStranding {
  import opened Wrappers
  import opened TaskTable
  import opened TaskRuns
  import opened TaskTheorems

  const A: TaskId := 1
  const B: TaskId := 2
  const NOW: Time := 0
  const TOKEN: Token := "token"

  function Params(dependsOn: seq<TaskId>): CreateParams { CreateParams("", "kind", [], "", 0, dependsOn, 0, 0, 0) }

  function RowA(): Task { NewTask(Params([]), NOW) }

  function ClaimedA(): Task { ClaimRow(map[A := RowA()], A, "worker", TOKEN, NOW)[A] }

  function CompletedA(): Task { CompleteRow(map[A := ClaimedA()], A, "result", NOW)[A] }

  const CLAIM: Action := Claim("worker", ClaimFilter("", []), A, TOKEN, NOW)
  const COMPLETE: Action := Complete(0, A, TOKEN, "result", NOW)

  /** A with the handlers and the log as given. */
  function WithA(row: Task, handlers: map<int, Handler>, log: seq<Event>, issued: set<Token>): Sys
  {
    Sys(Table(map[A := row], A), handlers, log, issued, map[A := 0], {A}, {})
  }

  function Created(): Sys { WithA(RowA(), map[], [], {}) }

  function Claimed(): Sys { WithA(ClaimedA(), map[], [DidClaim(A, TOKEN)], {TOKEN}) }

  function Completed(handlers: map<int, Handler>): Sys
  {
    WithA(CompletedA(), handlers, [DidClaim(A, TOKEN), DidComplete(A)], {TOKEN})
  }

  lemma CreateA()
    ensures Enabled(INITIAL, Create(Params([]), NOW)) && Apply(INITIAL, Create(Params([]), NOW)) == Created()
  {
    assert !TooLate(INITIAL, []);
  }

  lemma ClaimA()
    ensures Enabled(Created(), CLAIM) && Apply(Created(), CLAIM) == Claimed()
  {
  }

  lemma CompleteA()
    ensures Enabled(Claimed(), COMPLETE) && Apply(Claimed(), COMPLETE) == Completed(map[0 := ResolveStart(A)])
  {
  }

  lemma ResolveA()
    ensures Enabled(Completed(map[0 := ResolveStart(A)]), ResolveQuery(0, []))
    ensures Apply(Completed(map[0 := ResolveStart(A)]), ResolveQuery(0, [])) == Completed(map[0 := Resolving(A, [], 0)])
    ensures Enabled(Completed(map[0 := Resolving(A, [], 0)]), Return(0))
    ensures Apply(Completed(map[0 := Resolving(A, [], 0)]), Return(0)) == Completed(map[])
  {
    assert map[0 := Resolving(A, [], 0)] - {0} == map[];
  }

  lemma CreateB()
    ensures var s, a := Completed(map[]), Create(Params([A]), NOW);
            Enabled(s, a) && TooLate(s, [A]) && !ResolveInProgress(Apply(s, a)) && Overdue(Apply(s, a).table.rows, B)
  {
    var s, a := Completed(map[]), Create(Params([A]), NOW);
    assert Apply(s, a).table.rows[B] == NewTask(Params([A]), NOW);
  }

  /** One more step of an undisturbed run. */
  lemma Extended(states: seq<Sys>, actions: seq<Action>, s: Sys, a: Action, s': Sys)
    returns (states': seq<Sys>, actions': seq<Action>)
    requires Undisturbed(states, actions) && states[|actions|] == s && Enabled(s, a) && s' == Apply(s, a) && !a.Restart?
    requires a.Create? ==> forall d :: d in a.p.dependsOn ==> d in s.table.rows
    ensures Undisturbed(states', actions') && |actions'| == |actions| + 1
    ensures actions'[|actions|] == a && states'[|actions|] == s && states'[|actions'|] == s'
  {
    states', actions' := states + [s'], actions + [a];
    forall i | 0 <= i < |actions'|
      ensures Enabled(states'[i], actions'[i]) && states'[i + 1] == Apply(states'[i], actions'[i])
      ensures actions'[i].Restart? ==> !ResolveInProgress(states'[i])
      ensures actions'[i].Create? ==> forall d :: d in actions'[i].p.dependsOn ==> d in states'[i].table.rows
    {
      if i < |actions| {
        assert states'[i] == states[i] && states'[i + 1] == states[i + 1] && actions'[i] == actions[i];
      }
    }
  }

  lemma UpToClaimed() returns (states: seq<Sys>, actions: seq<Action>)
    ensures Undisturbed(states, actions) && |actions| == 2 && states[2] == Claimed()
  {
    CreateA();
    ClaimA();
    states, actions := [INITIAL], [];
    states, actions := Extended(states, actions, INITIAL, Create(Params([]), NOW), Created());
    states, actions := Extended(states, actions, Created(), CLAIM, Claimed());
  }

  lemma UpToReturned() returns (states: seq<Sys>, actions: seq<Action>)
    ensures Undisturbed(states, actions) && |actions| == 5 && states[5] == Completed(map[])
  {
    CompleteA();
    ResolveA();
    var started, empty := Completed(map[0 := ResolveStart(A)]), Completed(map[0 := Resolving(A, [], 0)]);
    states, actions := UpToClaimed();
    states, actions := Extended(states, actions, Claimed(), COMPLETE, started);
    states, actions := Extended(states, actions, started, ResolveQuery(0, []), empty);
    states, actions := Extended(states, actions, empty, Return(0), Completed(map[]));
  }

  /** `TooLate` does come about, and leaves the task pending, blocked and with no one to unblock it. */
  lemma TooLateHappens()
    ensures exists states: seq<Sys>, actions: seq<Action> ::
              && Undisturbed(states, actions) && |actions| == 6
              && actions[5].Create? && TooLate(states[5], actions[5].p.dependsOn)
              && !ResolveInProgress(states[6]) && Overdue(states[6].table.rows, states[5].table.lastId + 1)
  {
    CreateB();
    var s, a := Completed(map[]), Create(Params([A]), NOW);
    var states, actions := UpToReturned();
    states, actions := Extended(states, actions, s, a, Apply(s, a));
    assert actions[5] == a && states[5] == s && states[6] == Apply(s, a);
  }
}
