/** The invariant of `TaskRuns` is kept by every action, hence holds in every state of every run. */
module TaskInvariant {
  import opened Wrappers
  import opened TaskTable
  import opened TaskRuns

  // ---------------------------------------------------------------- what every action does to the rows

  /** A task waiting on something that never completed is still blocked, so never claimed or completed. */
  lemma DoomedStaysBlocked(t: Table, id: TaskId, dep: TaskId)
    requires Sound(t) && id in t.rows && dep in t.rows[id].dependsOn && !IsCompleted(t.rows, dep)
    ensures t.rows[id].blocked && t.rows[id].state !in {Claimed, Completed}
  {
  }

  /** The only hard case of `RowMoves`: the unguarded write of FailDependents. Its row lists a failed task,
    * so it cannot be claimed or completed. */
  lemma FailWriteMoves(s: Sys, a: Action, id: TaskId)
    requires Sound(s.table) && HandlersSound(s) && Enabled(s, a) && id in s.table.rows && a.FailWrite?
    ensures id in NextRows(s, a) && RowMove(s.table.rows[id], NextRows(s, a)[id])
  {
    assert HandlerSound(s.table.rows, s.handlers[a.h]);
    DoomedStaysBlocked(s.table, s.handlers[a.h].ids[0], s.handlers[a.h].dep);
  }

  lemma SweepMoves(s: Sys, a: Action, id: TaskId)
    requires Sound(s.table) && Enabled(s, a) && id in s.table.rows
    requires a.ExpireTasks? || a.Disconnect? || a.LeaseSweep? || a.Restart?
    ensures id in NextRows(s, a) && RowMove(s.table.rows[id], NextRows(s, a)[id])
  {
  }

  lemma StatementMoves(s: Sys, a: Action, id: TaskId)
    requires Sound(s.table) && Enabled(s, a) && id in s.table.rows
    requires !a.FailWrite? && !a.ExpireTasks? && !a.Disconnect? && !a.LeaseSweep? && !a.Restart?
    ensures id in NextRows(s, a) && RowMove(s.table.rows[id], NextRows(s, a)[id])
  {
  }

  /** Every action moves every existing row as `RowMove` allows. */
  lemma RowMoves(s: Sys, a: Action, id: TaskId)
    requires Sound(s.table) && HandlersSound(s) && Enabled(s, a) && id in s.table.rows
    ensures id in NextRows(s, a) && RowMove(s.table.rows[id], NextRows(s, a)[id])
  {
    if a.FailWrite? {
      FailWriteMoves(s, a, id);
    } else if a.ExpireTasks? || a.Disconnect? || a.LeaseSweep? || a.Restart? {
      SweepMoves(s, a, id);
    } else {
      StatementMoves(s, a, id);
    }
  }

  lemma ActionEvolves(s: Sys, a: Action)
    requires Sound(s.table) && HandlersSound(s) && Enabled(s, a)
    ensures Evolves(s.table.rows, NextRows(s, a))
  {
    forall id | id in s.table.rows
      ensures id in NextRows(s, a) && RowMove(s.table.rows[id], NextRows(s, a)[id])
    {
      RowMoves(s, a, id);
    }
  }

  lemma ReadyCandidate(rows: Rows, r: Handler)
    requires HandlerSound(rows, r) && r.Resolving? && r.todo != [] && r.checked == |r.todo[0].deps|
    ensures r.todo[0].id in rows && AllCompleted(rows, rows[r.todo[0].id].dependsOn)
  {
    assert r.todo[0] in r.todo;
    assert r.todo[0].deps[..r.checked] == r.todo[0].deps;
  }

  lemma UnblocksOnlyReady(s: Sys, a: Action, id: TaskId)
    requires Sound(s.table) && HandlersSound(s) && Enabled(s, a) && id in s.table.rows && id in NextRows(s, a)
    requires s.table.rows[id].blocked && !NextRows(s, a)[id].blocked
    ensures AllCompleted(s.table.rows, s.table.rows[id].dependsOn)
  {
    if a.ResolveWrite? {
      assert HandlerSound(s.table.rows, s.handlers[a.h]);
      ReadyCandidate(s.table.rows, s.handlers[a.h]);
    }
  }

  lemma KeysStay(s: Sys, a: Action)
    requires Enabled(s, a) && !a.Create?
    ensures NextRows(s, a).Keys == s.table.rows.Keys
  {
  }

  lemma ActionKeepsSound(s: Sys, a: Action)
    requires Sound(s.table) && HandlersSound(s) && Enabled(s, a)
    ensures Sound(Apply(s, a).table)
  {
    if a.Create? {
      InsertKeepsSound(s.table, a.p, a.now);
    } else {
      ActionEvolves(s, a);
      KeysStay(s, a);
      forall id | id in s.table.rows && s.table.rows[id].blocked && !NextRows(s, a)[id].blocked
        ensures AllCompleted(s.table.rows, s.table.rows[id].dependsOn)
      {
        UnblocksOnlyReady(s, a, id);
      }
      EvolvingKeepsSound(s.table, NextRows(s, a));
    }
  }

  // ---------------------------------------------------------------- handlers

  lemma EvolutionKeepsCompleted(rows: Rows, rows': Rows, ids: seq<TaskId>)
    requires Evolves(rows, rows') && AllCompleted(rows, ids)
    ensures AllCompleted(rows', ids)
  {
  }

  lemma EvolutionKeepsHandler(rows: Rows, rows': Rows, h: Handler)
    requires Evolves(rows, rows') && HandlerSound(rows, h)
    ensures HandlerSound(rows', h)
  {
  }

  lemma ReadKeepsHandler(rows: Rows, r: Handler)
    requires r.Resolving? && r.todo != [] && r.checked < |r.todo[0].deps| && HandlerSound(rows, r)
    requires IsCompleted(rows, r.todo[0].deps[r.checked])
    ensures HandlerSound(rows, Resolving(r.dep, r.todo, r.checked + 1))
  {
  }

  /** A handler as its own step leaves it, over the rows before the step. */
  lemma StepKeepsHandler(s: Sys, a: Action, h: int)
    requires HandlersSound(s) && Enabled(s, a) && h in s.handlers && h in NextHandlers(s, a)
    ensures HandlerSound(s.table.rows, NextHandlers(s, a)[h])
  {
    var r := s.handlers[h];
    assert HandlerSound(s.table.rows, r);
    if a.ResolveRead? && a.h == h && NextHandlers(s, a)[h].checked > 0 {
      ReadKeepsHandler(s.table.rows, r);
    }
  }

  lemma NewHandlerSound(s: Sys, a: Action, h: int)
    requires Enabled(s, a) && h !in s.handlers && h in NextHandlers(s, a)
    ensures HandlerSound(NextRows(s, a), NextHandlers(s, a)[h])
  {
  }

  lemma ActionKeepsHandlers(s: Sys, a: Action)
    requires Sound(s.table) && HandlersSound(s) && Enabled(s, a)
    ensures HandlersSound(Apply(s, a))
  {
    ActionEvolves(s, a);
    forall h | h in NextHandlers(s, a)
      ensures HandlerSound(NextRows(s, a), NextHandlers(s, a)[h])
    {
      if h in s.handlers {
        StepKeepsHandler(s, a, h);
        EvolutionKeepsHandler(s.table.rows, NextRows(s, a), NextHandlers(s, a)[h]);
      } else {
        NewHandlerSound(s, a, h);
      }
    }
  }

  // ---------------------------------------------------------------- log

  /** Nothing but Complete makes a task completed. */
  lemma OnlyCompleteCompletes(s: Sys, a: Action, id: TaskId)
    requires Sound(s.table) && HandlersSound(s) && Enabled(s, a)
    requires IsCompleted(NextRows(s, a), id) && !IsCompleted(s.table.rows, id)
    ensures a.Complete? && a.id == id
  {
  }

  /** Nothing but Claim makes a task claimed or gives it another token. */
  lemma OnlyClaimClaims(s: Sys, a: Action, id: TaskId)
    requires Enabled(s, a) && !a.Claim?
    requires id in NextRows(s, a) && NextRows(s, a)[id].state == Claimed
    ensures id in s.table.rows && s.table.rows[id].state == Claimed
    ensures s.table.rows[id].claimToken == NextRows(s, a)[id].claimToken
  {
  }

  lemma QuietKeepsLog(s: Sys, a: Action)
    requires Sound(s.table) && HandlersSound(s) && LogSound(s) && Enabled(s, a)
    requires !a.Claim? && !a.Complete?
    ensures LogSound(Apply(s, a))
  {
    ActionEvolves(s, a);
    var s' := Apply(s, a);
    var rows, rows' := s.table.rows, s'.table.rows;
    assert s'.log == s.log;
    forall id
      ensures IsCompleted(rows', id) <==> DidComplete(id) in s'.log
    {
      if IsCompleted(rows, id) {
        assert RowMove(rows[id], rows'[id]);
      } else if IsCompleted(rows', id) {
        OnlyCompleteCompletes(s, a, id);
      }
    }
    OrderSurvivesEvolution(s.log, rows, rows');
    forall id | id in rows' && rows'[id].state == Claimed
      ensures rows'[id].claimToken.Some? && DidClaim(id, rows'[id].claimToken.value) in s'.log
    {
      OnlyClaimClaims(s, a, id);
    }
  }

  /** Claim and Complete append an event for a row whose dependencies are all in the log already. */
  lemma AppendKeepsOrder(log: seq<Event>, e: Event, rows: Rows)
    requires LogOrder(log, rows) && e.id in rows
    requires forall d :: d in rows[e.id].dependsOn ==> DidComplete(d) in log
    ensures LogOrder(log + [e], rows)
  {
    var log' := log + [e];
    forall k, d | 0 <= k < |log'| && d in rows[log'[k].id].dependsOn
      ensures DidComplete(d) in log'[..k]
    {
      assert log'[..k] == if k < |log| then log[..k] else log;
    }
  }

  lemma AppendKeepsShape(log: seq<Event>, e: Event)
    requires LogShape(log)
    requires e.DidComplete? ==> e !in log && ClaimedWithin(log, e.id)
    ensures LogShape(log + [e])
  {
    var log' := log + [e];
    forall k | 0 <= k < |log'| && log'[k].DidComplete?
      ensures ClaimedWithin(log'[..k], log'[k].id)
    {
      assert log'[..k] == if k < |log| then log[..k] else log;
    }
  }

  lemma OrderSurvivesEvolution(log: seq<Event>, rows: Rows, rows': Rows)
    requires LogOrder(log, rows) && Evolves(rows, rows')
    ensures LogOrder(log, rows')
  {
  }

  /** Claim and Complete: the event of an unblocked row joins the log. */
  lemma LoggingKeepsLog(s: Sys, a: Action, e: Event)
    requires Sound(s.table) && HandlersSound(s) && LogSound(s) && Enabled(s, a)
    requires (a.Claim? && e == DidClaim(a.id, a.token)) || (a.Complete? && e == DidComplete(a.id))
    ensures LogOrder(s.log + [e], Apply(s, a).table.rows) && LogShape(s.log + [e])
  {
    ActionEvolves(s, a);
    var rows, rows' := s.table.rows, Apply(s, a).table.rows;
    assert AllCompleted(rows, rows[a.id].dependsOn);
    OrderSurvivesEvolution(s.log, rows, rows');
    assert RowMove(rows[a.id], rows'[a.id]);
    AppendKeepsOrder(s.log, e, rows');
    assert a.Complete? ==> !IsCompleted(rows, a.id) && DidClaim(a.id, rows[a.id].claimToken.value) in s.log;
    AppendKeepsShape(s.log, e);
  }

  lemma ClaimKeepsLog(s: Sys, a: Action)
    requires Sound(s.table) && HandlersSound(s) && LogSound(s) && Enabled(s, a) && a.Claim?
    ensures LogSound(Apply(s, a))
  {
    var rows, rows' := s.table.rows, Apply(s, a).table.rows;
    var e := DidClaim(a.id, a.token);
    LoggingKeepsLog(s, a, e);
    assert forall x :: x in s.log + [e] <==> x in s.log || x == e;
    assert forall id :: IsCompleted(rows', id) <==> IsCompleted(rows, id);
  }

  /** The rows and the log still name the same completions and claims once both know of one more. */
  lemma CompletionAgrees(rows: Rows, log: seq<Event>, id: TaskId, res: string, now: Time)
    requires id in rows
    requires forall x :: IsCompleted(rows, x) <==> DidComplete(x) in log
    requires forall x :: x in rows && rows[x].state == State.Claimed ==>
               rows[x].claimToken.Some? && DidClaim(x, rows[x].claimToken.value) in log
    ensures var rows', log' := CompleteRow(rows, id, res, now), log + [DidComplete(id)];
            && (forall x :: IsCompleted(rows', x) <==> DidComplete(x) in log')
            && (forall x :: x in rows' && rows'[x].state == State.Claimed ==>
                              rows'[x].claimToken.Some? && DidClaim(x, rows'[x].claimToken.value) in log')
  {
  }

  lemma CompleteKeepsLog(s: Sys, a: Action)
    requires Sound(s.table) && HandlersSound(s) && LogSound(s) && Enabled(s, a) && a.Complete?
    ensures LogSound(Apply(s, a))
  {
    LoggingKeepsLog(s, a, DidComplete(a.id));
    CompletionAgrees(s.table.rows, s.log, a.id, a.res, a.now);
  }

  lemma ActionKeepsLog(s: Sys, a: Action)
    requires Sound(s.table) && HandlersSound(s) && LogSound(s) && Enabled(s, a)
    ensures LogSound(Apply(s, a))
  {
    if a.Claim? {
      ClaimKeepsLog(s, a);
    } else if a.Complete? {
      CompleteKeepsLog(s, a);
    } else {
      QuietKeepsLog(s, a);
    }
  }

  // ---------------------------------------------------------------- tokens and retries

  /** Where the token on a row comes from. */
  lemma TokenOrigin(s: Sys, a: Action, id: TaskId)
    requires Enabled(s, a) && id in NextRows(s, a) && NextRows(s, a)[id].claimToken.Some?
    ensures
      || (a.Claim? && id == a.id && NextRows(s, a)[id].claimToken.value == a.token)
      || (id in s.table.rows && NextRows(s, a)[id].claimToken == s.table.rows[id].claimToken)
  {
  }

  lemma ActionKeepsTokens(s: Sys, a: Action)
    requires TokensSound(s) && Enabled(s, a)
    ensures TokensSound(Apply(s, a))
  {
    var s' := Apply(s, a);
    var rows, rows' := s.table.rows, s'.table.rows;
    assert s'.issued == if a.Claim? then s.issued + {a.token} else s.issued;
    forall i, j | i in rows' && j in rows' && rows'[i].claimToken.Some? && rows'[i].claimToken == rows'[j].claimToken
      ensures i == j && rows'[i].claimToken.value in s'.issued
    {
      TokenOrigin(s, a, i);
      TokenOrigin(s, a, j);
    }
    forall i | i in rows' && rows'[i].claimToken.Some?
      ensures rows'[i].claimToken.value in s'.issued
    {
      TokenOrigin(s, a, i);
    }
  }

  /** Lease expiry sends a row back to pending only while another retry is left. */
  lemma SweepCounts(s: Sys, now: Time, id: TaskId)
    requires ExpiriesSound(s) && id in s.table.rows
    ensures id in CountExpiries(s, now)
    ensures var n, t := CountExpiries(s, now)[id], SweepLeases(s.table.rows, now)[id];
            n <= t.retryCount && n <= Max(0, t.maxRetries - 1)
  {
  }

  lemma ExpiriesAfter(s: Sys, a: Action, id: TaskId)
    requires Enabled(s, a) && ExpiriesSound(s) && id in s.table.rows && Sound(s.table)
    requires id in NextRows(s, a) && RowMove(s.table.rows[id], NextRows(s, a)[id])
    ensures id in NextExpiries(s, a)
    ensures var n, t := NextExpiries(s, a)[id], NextRows(s, a)[id];
            n <= t.retryCount && n <= Max(0, t.maxRetries - 1)
  {
    if a.LeaseSweep? {
      SweepCounts(s, a.now, id);
    }
  }

  lemma ExpiriesCoverRows(s: Sys, a: Action)
    requires Enabled(s, a) && s.expiries.Keys == s.table.rows.Keys
    ensures NextExpiries(s, a).Keys == NextRows(s, a).Keys
  {
    if !a.Create? {
      KeysStay(s, a);
    }
  }

  lemma ActionKeepsExpiries(s: Sys, a: Action)
    requires Sound(s.table) && HandlersSound(s) && ExpiriesSound(s) && Enabled(s, a)
    ensures ExpiriesSound(Apply(s, a))
  {
    ExpiriesCoverRows(s, a);
    forall id | id in NextRows(s, a)
      ensures var n, t := NextExpiries(s, a)[id], NextRows(s, a)[id];
              n <= t.retryCount && n <= Max(0, t.maxRetries - 1)
    {
      if id in s.table.rows {
        RowMoves(s, a, id);
        ExpiriesAfter(s, a, id);
      }
    }
  }

  // ---------------------------------------------------------------- wakeups

  /** A task overdue after an action was overdue before, or the action completed its last dependency. */
  lemma OverdueBefore(s: Sys, a: Action, id: TaskId)
    requires Sound(s.table) && HandlersSound(s) && Enabled(s, a)
    requires id in s.table.rows && Overdue(NextRows(s, a), id)
    ensures Overdue(s.table.rows, id) || (a.Complete? && a.id in s.table.rows[id].dependsOn)
    ensures s.table.rows[id].state == Pending && s.table.rows[id].blocked
    ensures NextRows(s, a)[id].dependsOn == s.table.rows[id].dependsOn
  {
    RowMoves(s, a, id);
    forall d | d in s.table.rows[id].dependsOn
      ensures IsCompleted(s.table.rows, d) || (a.Complete? && a.id == d)
    {
      if !IsCompleted(s.table.rows, d) {
        OnlyCompleteCompletes(s, a, d);
      }
    }
  }

  lemma QueryFinds(s: Sys, h: int, found: seq<Candidate>, id: TaskId)
    requires Enabled(s, ResolveQuery(h, found)) && Overdue(s.table.rows, id)
    requires WillVisit(s.handlers[h], id, s.table.rows[id].dependsOn)
    ensures Candidate(id, s.table.rows[id].dependsOn) in found
  {
  }

  /** A candidate is dropped from the list when it has been written, or when a dependency read for it has
    * not completed. */
  lemma DroppedWhenDone(todo: seq<Candidate>, c: Candidate)
    requires todo != [] && c in todo && c !in todo[1..]
    ensures c == todo[0]
  {
    assert todo == [todo[0]] + todo[1..];
  }

  lemma ReadVisits(s: Sys, h: int, id: TaskId)
    requires Enabled(s, ResolveRead(h)) && Overdue(s.table.rows, id)
    requires WillVisit(s.handlers[h], id, s.table.rows[id].dependsOn)
    ensures h in NextHandlers(s, ResolveRead(h)) ==> WillVisit(NextHandlers(s, ResolveRead(h))[h], id, s.table.rows[id].dependsOn)
    ensures h !in NextHandlers(s, ResolveRead(h)) ==> s.handlers[h].dep in NextLost(s, ResolveRead(h))
  {
    var r, c := s.handlers[h], Candidate(id, s.table.rows[id].dependsOn);
    if c !in r.todo[1..] {
      DroppedWhenDone(r.todo, c);
      assert r.todo[0].deps[r.checked] in c.deps;
    }
  }

  lemma WriteVisits(s: Sys, h: int, now: Time, id: TaskId)
    requires Enabled(s, ResolveWrite(h, now)) && id in s.table.rows
    requires id in NextRows(s, ResolveWrite(h, now)) && NextRows(s, ResolveWrite(h, now))[id].blocked
    requires WillVisit(s.handlers[h], id, s.table.rows[id].dependsOn)
    ensures WillVisit(NextHandlers(s, ResolveWrite(h, now))[h], id, s.table.rows[id].dependsOn)
  {
    var r, c := s.handlers[h], Candidate(id, s.table.rows[id].dependsOn);
    if c !in r.todo[1..] {
      DroppedWhenDone(r.todo, c);
    }
  }

  /** A handler changes only by its own steps or a restart. */
  lemma HandlerKept(s: Sys, a: Action, h: int)
    requires Enabled(s, a) && h in s.handlers && (s.handlers[h].ResolveStart? || s.handlers[h].Resolving?)
    ensures a.Restart? || (a.ResolveQuery? && a.h == h) || (a.ResolveRead? && a.h == h) || (a.ResolveWrite? && a.h == h)
            || (a.Return? && a.h == h && s.handlers[h].todo == [])
            || (h in NextHandlers(s, a) && NextHandlers(s, a)[h] == s.handlers[h])
    ensures a.Restart? ==> s.handlers[h].dep in NextLost(s, a)
  {
  }

  /** A handler that would visit an overdue task still will, unless the action unblocked the task or
    * ended the handler early. */
  lemma VisitContinues(s: Sys, a: Action, id: TaskId, h: int)
    requires HandlersSound(s) && Enabled(s, a)
    requires Overdue(s.table.rows, id) && h in s.handlers && WillVisit(s.handlers[h], id, s.table.rows[id].dependsOn)
    requires id in NextRows(s, a) && NextRows(s, a)[id].blocked
    ensures
      || (h in NextHandlers(s, a) && WillVisit(NextHandlers(s, a)[h], id, s.table.rows[id].dependsOn))
      || (exists d :: d in s.table.rows[id].dependsOn && d in NextLost(s, a))
  {
    assert HandlerSound(s.table.rows, s.handlers[h]);
    assert s.handlers[h].dep in s.table.rows[id].dependsOn;
    HandlerKept(s, a, h);
    if a.ResolveQuery? && a.h == h {
      QueryFinds(s, h, a.found, id);
    } else if a.ResolveRead? && a.h == h {
      ReadVisits(s, h, id);
    } else if a.ResolveWrite? && a.h == h {
      WriteVisits(s, h, a.now, id);
    }
  }

  /** A new task that is overdue at once will still be found by a query, unless it was created too late. */
  lemma NewTaskIsFound(s: Sys, a: Action)
    requires Sound(s.table) && Enabled(s, a) && a.Create?
    requires Overdue(Apply(s, a).table.rows, s.table.lastId + 1) && !TooLate(s, a.p.dependsOn)
    ensures Visited(Apply(s, a), s.table.lastId + 1, a.p.dependsOn)
  {
    var s', id := Apply(s, a), s.table.lastId + 1;
    assert s'.table.rows[id] == NewTask(a.p, a.now);
    assert AllCompleted(s.table.rows, a.p.dependsOn);
    var h :| h in s.handlers && s.handlers[h].ResolveStart? && s.handlers[h].dep in a.p.dependsOn;
    assert WillVisit(s'.handlers[h], id, a.p.dependsOn);
  }

  lemma FoundByItsQuery(s: Sys, a: Action, id: TaskId)
    requires Enabled(s, a) && a.Complete? && id in s.table.rows && a.id in s.table.rows[id].dependsOn
    ensures Visited(Apply(s, a), id, s.table.rows[id].dependsOn)
  {
    assert WillVisit(NextHandlers(s, a)[a.h], id, s.table.rows[id].dependsOn);
  }

  lemma StillFound(s: Sys, a: Action, id: TaskId)
    requires HandlersSound(s) && Enabled(s, a) && Overdue(s.table.rows, id) && Visited(s, id, s.table.rows[id].dependsOn)
    requires id in NextRows(s, a) && NextRows(s, a)[id].blocked
    ensures Visited(Apply(s, a), id, s.table.rows[id].dependsOn)
            || exists d :: d in s.table.rows[id].dependsOn && d in NextLost(s, a)
  {
    var h :| h in s.handlers && WillVisit(s.handlers[h], id, s.table.rows[id].dependsOn);
    VisitContinues(s, a, id, h);
  }

  lemma LostStaysLost(s: Sys, a: Action)
    requires Enabled(s, a)
    ensures s.lost <= NextLost(s, a)
  {
  }

  lemma OldTaskIsFound(s: Sys, a: Action, id: TaskId)
    requires Sound(s.table) && HandlersSound(s) && WakeupsSound(s) && Enabled(s, a)
    requires id in s.table.rows && id in s.awaiting && Overdue(NextRows(s, a), id)
    ensures Visited(Apply(s, a), id, s.table.rows[id].dependsOn)
            || exists d :: d in s.table.rows[id].dependsOn && d in NextLost(s, a)
  {
    OverdueBefore(s, a, id);
    if !Overdue(s.table.rows, id) {
      FoundByItsQuery(s, a, id);
    } else if Visited(s, id, s.table.rows[id].dependsOn) {
      StillFound(s, a, id);
    } else {
      LostStaysLost(s, a);
    }
  }

  lemma ActionKeepsWakeups(s: Sys, a: Action)
    requires Sound(s.table) && HandlersSound(s) && WakeupsSound(s) && Enabled(s, a)
    ensures WakeupsSound(Apply(s, a))
  {
    ActionEvolves(s, a);
    var s' := Apply(s, a);
    var rows, rows' := s.table.rows, s'.table.rows;
    forall id | id in s'.awaiting && Overdue(rows', id)
      ensures Visited(s', id, rows'[id].dependsOn) || exists d :: d in rows'[id].dependsOn && d in s'.lost
    {
      if id in rows {
        assert RowMove(rows[id], rows'[id]);
        OldTaskIsFound(s, a, id);
      } else {
        NewTaskIsFound(s, a);
      }
    }
  }

  // ---------------------------------------------------------------- all together

  lemma ActionKeepsInv(s: Sys, a: Action)
    requires Inv(s) && Enabled(s, a)
    ensures Inv(Apply(s, a))
  {
    ActionKeepsSound(s, a);
    ActionKeepsHandlers(s, a);
    ActionKeepsLog(s, a);
    ActionKeepsTokens(s, a);
    ActionKeepsExpiries(s, a);
    ActionKeepsWakeups(s, a);
  }

  lemma {:induction false} RunsKeepInv(states: seq<Sys>, actions: seq<Action>, i: nat)
    requires Run(states, actions) && i < |states|
    ensures Inv(states[i])
  {
    if i > 0 {
      RunsKeepInv(states, actions, i - 1);
      ActionKeepsInv(states[i - 1], actions[i - 1]);
    }
  }
}
