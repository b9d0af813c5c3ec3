/** The invariant of `Sessions` is kept by every step, and what follows for whole runs. */
module SessionTheorems {
  import opened Wrappers
  import opened Sessions

  /** A connection keeps its name, and only a connect gives one. */
  lemma ConnAfter(b: Broker, a: Action, s: Sid)
    requires Enabled(b, a) && s in NextConns(b, a)
    ensures s !in b.conns ==> a.Accept? && NextConns(b, a)[s] == Conn("", 0, false, false, Serving)
    ensures s in b.conns ==>
              var c, c' := b.conns[s], NextConns(b, a)[s];
              && (a.Connect? && a.sid == s ==>
                    c.name == "" && c'.name == a.name && c'.since == b.clock && c'.phase == c.phase == Serving
                    && c'.ownsPushToken == (c.ownsPushToken || Mints(b, a.name)))
              && (!(a.Connect? && a.sid == s) ==>
                    c'.name == c.name && c'.since == c.since && (c'.ownsPushToken ==> c.ownsPushToken))
              && (c.ownsPushToken && !c'.ownsPushToken ==>
                    a.Release? && a.name in b.sessions && b.sessions[a.name] == s && !EndsPush(c.name))
              && (!(a.BeginCleanup? && a.sid == s) && !(a.CleanupStep? && a.sid == s) ==> c'.phase == c.phase)
              && (a.BeginCleanup? && a.sid == s ==> c.phase == Serving && c'.phase == if c.name == "" then Closed else Begun)
              && (a.CleanupStep? && a.sid == s ==> c.phase != Serving && c'.phase == NextPhase(b, s))
  {
  }

  lemma MappedStays(b: Broker, a: Action, s: Sid)
    requires MapSound(b) && Enabled(b, a) && s in NextConns(b, a)
    ensures var c := NextConns(b, a)[s];
            && (Mapped(c) ==> c.name in NextSessions(b, a) && NextSessions(b, a)[c.name] == s)
            && (c.name == "" ==> c.phase in {Serving, Closed} && !c.ownsPushToken)
  {
    ConnAfter(b, a, s);
  }

  lemma NamedStays(b: Broker, a: Action, n: string)
    requires MapSound(b) && Enabled(b, a) && n in NextSessions(b, a)
    ensures var s := NextSessions(b, a)[n];
            s in NextConns(b, a) && Mapped(NextConns(b, a)[s]) && NextConns(b, a)[s].name == n
  {
    ConnAfter(b, a, NextSessions(b, a)[n]);
  }

  lemma KeepsMap(b: Broker, a: Action)
    requires MapSound(b) && Enabled(b, a)
    ensures MapSound(Apply(b, a))
  {
    forall s | s in NextConns(b, a)
      ensures var c := NextConns(b, a)[s];
              && (Mapped(c) ==> c.name in NextSessions(b, a) && NextSessions(b, a)[c.name] == s)
              && (c.name == "" ==> c.phase in {Serving, Closed} && !c.ownsPushToken)
    {
      MappedStays(b, a, s);
    }
    forall n | n in NextSessions(b, a)
      ensures var s := NextSessions(b, a)[n];
              s in NextConns(b, a) && Mapped(NextConns(b, a)[s]) && NextConns(b, a)[s].name == n
    {
      NamedStays(b, a, n);
    }
  }

  /** A token a session owns stays, unless a release takes both or its own cleanup takes it. */
  lemma OwnedTokenStays(b: Broker, a: Action, s: Sid)
    requires MapSound(b) && TokensSound(b) && Enabled(b, a)
    requires s in b.conns && Mapped(b.conns[s]) && b.conns[s].ownsPushToken
    requires s in NextConns(b, a) && Mapped(NextConns(b, a)[s]) && NextConns(b, a)[s].ownsPushToken
    ensures var n := b.conns[s].name;
            n in NextTokens(b, a) && NextTokens(b, a)[n] == b.pushTokens[n]
  {
  }

  lemma OwnersKeepTokens(b: Broker, a: Action, s: Sid)
    requires MapSound(b) && TokensSound(b) && Enabled(b, a)
    requires s in NextConns(b, a) && Mapped(NextConns(b, a)[s]) && NextConns(b, a)[s].ownsPushToken
    ensures var n := NextConns(b, a)[s].name;
            n in NextTokens(b, a) && NextTokens(b, a)[n].minter == BySession(s)
  {
    ConnAfter(b, a, s);
    if s in b.conns && b.conns[s].ownsPushToken {
      OwnedTokenStays(b, a, s);
    }
  }

  /** A minted token in the map was there before, or its session has just connected. */
  lemma MintedBefore(b: Broker, a: Action, n: string)
    requires Enabled(b, a) && n in NextTokens(b, a) && NextTokens(b, a)[n].minter.BySession?
    ensures (n in b.pushTokens && NextTokens(b, a)[n] == b.pushTokens[n])
            || (a.Connect? && a.name == n && Mints(b, n) && NextTokens(b, a)[n].minter.sid == a.sid)
  {
  }

  lemma TokensKeepOwners(b: Broker, a: Action, n: string)
    requires MapSound(b) && TokensSound(b) && Enabled(b, a)
    requires n in NextTokens(b, a) && NextTokens(b, a)[n].minter.BySession?
    ensures var s := NextTokens(b, a)[n].minter.sid;
            var conns := NextConns(b, a);
            s in conns && conns[s].name == n && Mapped(conns[s]) && conns[s].ownsPushToken
  {
    MintedBefore(b, a, n);
    if !a.Connect? || a.name != n {
      OwnerStays(b, a, n);
    }
  }

  lemma OwnerStays(b: Broker, a: Action, n: string)
    requires MapSound(b) && TokensSound(b) && Enabled(b, a)
    requires n in b.pushTokens && n in NextTokens(b, a) && NextTokens(b, a)[n] == b.pushTokens[n]
    requires b.pushTokens[n].minter.BySession? && !(a.Connect? && a.name == n)
    ensures var s := b.pushTokens[n].minter.sid;
            var conns := NextConns(b, a);
            s in conns && conns[s].name == n && Mapped(conns[s]) && conns[s].ownsPushToken
  {
  }

  lemma KeepsTokens(b: Broker, a: Action)
    requires MapSound(b) && TokensSound(b) && Enabled(b, a)
    ensures TokensSound(Apply(b, a))
  {
    var b' := Apply(b, a);
    forall s | s in b'.conns && Mapped(b'.conns[s]) && b'.conns[s].ownsPushToken
      ensures b'.conns[s].name in b'.pushTokens && b'.pushTokens[b'.conns[s].name].minter == BySession(s)
    {
      OwnersKeepTokens(b, a, s);
    }
    forall n | n in b'.pushTokens && b'.pushTokens[n].minter.BySession?
      ensures var s := b'.pushTokens[n].minter.sid;
              s in b'.conns && b'.conns[s].name == n && Mapped(b'.conns[s]) && b'.conns[s].ownsPushToken
    {
      TokensKeepOwners(b, a, n);
    }
  }

  lemma PushOfBase(n: string)
    ensures EndsPush(n + "-push") && Base(n + "-push") == n
  {
  }

  lemma KeepsNames(b: Broker, a: Action)
    requires MapSound(b) && TokensSound(b) && NamesSound(b) && Enabled(b, a)
    ensures NamesSound(Apply(b, a))
  {
    var b' := Apply(b, a);
    forall s | s in b'.conns
      ensures EndsPush(b'.conns[s].name) ==> !EndsPush(Base(b'.conns[s].name)) && !b'.conns[s].ownsPushToken
      ensures EndsPush(b'.conns[s].name) ==>
                !b'.conns[s].phase.AwaitPeer? && (b'.conns[s].phase.Removed? ==> b'.conns[s].phase.peer.None?)
      ensures b'.conns[s].phase.AwaitPeer? ==> b'.conns[s].phase.peerSid in b'.conns
      ensures b'.conns[s].phase.Removed? && b'.conns[s].phase.peer.Some? ==>
                b'.conns[s].phase.peer.value in b'.conns
                && b'.conns[b'.conns[s].phase.peer.value].name == b'.conns[s].name + "-push"
    {
      ConnAfter(b, a, s);
      if b'.conns[s].phase.Removed? && b'.conns[s].phase.peer.Some? {
        ConnAfter(b, a, b'.conns[s].phase.peer.value);
      }
    }
  }

  lemma KeepsOrder(b: Broker, a: Action)
    requires MapSound(b) && OrderSound(b) && Enabled(b, a)
    ensures OrderSound(Apply(b, a))
  {
    var b' := Apply(b, a);
    forall s | s in b'.conns && b'.conns[s].name != ""
      ensures b'.conns[s].since < b'.clock
    {
      ConnAfter(b, a, s);
    }
    forall s, t | s in b'.conns && t in b'.conns && s != t && Mapped(b'.conns[s]) && b'.conns[t].name == b'.conns[s].name
      ensures b'.conns[t].since < b'.conns[s].since
    {
      ConnAfter(b, a, s);
      ConnAfter(b, a, t);
    }
  }

  lemma KeepsLock(b: Broker, a: Action, r: string)
    requires GrantsSound(b) && Enabled(b, a) && r in NextLocks(b, a)
    ensures HeldBy(NextConns(b, a), NextLocks(b, a)[r], {Serving, Begun})
  {
  }

  lemma KeepsSub(b: Broker, a: Action, k: (string, string))
    requires GrantsSound(b) && Enabled(b, a) && k in NextSubs(b, a)
    ensures HeldBy(NextConns(b, a), NextSubs(b, a)[k], {Serving, Begun, LocksReleased, ClaimsRequeued})
  {
  }

  lemma KeepsClaim(b: Broker, a: Action, t: int)
    requires GrantsSound(b) && Enabled(b, a) && t in NextClaims(b, a)
    ensures var g := NextClaims(b, a)[t];
            g.owner != "" && g.sid in NextConns(b, a) && NextConns(b, a)[g.sid].name == g.owner
  {
    ConnAfter(b, a, NextClaims(b, a)[t].sid);
  }

  lemma KeepsGrants(b: Broker, a: Action)
    requires MapSound(b) && GrantsSound(b) && Enabled(b, a)
    ensures GrantsSound(Apply(b, a))
  {
    var b' := Apply(b, a);
    forall r | r in b'.locks ensures HeldBy(b'.conns, b'.locks[r], {Serving, Begun}) { KeepsLock(b, a, r); }
    forall k | k in b'.subs ensures HeldBy(b'.conns, b'.subs[k], {Serving, Begun, LocksReleased, ClaimsRequeued}) { KeepsSub(b, a, k); }
    forall t | t in b'.claims
      ensures b'.claims[t].owner != "" && b'.claims[t].sid in b'.conns && b'.conns[b'.claims[t].sid].name == b'.claims[t].owner
    {
      KeepsClaim(b, a, t);
    }
  }

  lemma StepKeepsInv(b: Broker, a: Action)
    requires Inv(b) && Enabled(b, a)
    ensures Inv(Apply(b, a))
  {
    KeepsMap(b, a);
    KeepsTokens(b, a);
    KeepsNames(b, a);
    KeepsOrder(b, a);
    KeepsGrants(b, a);
  }

  lemma {:induction false} RunsKeepInv(states: seq<Broker>, actions: seq<Action>, i: nat)
    requires Run(states, actions) && i < |states|
    ensures Inv(states[i])
  {
    if i > 0 {
      RunsKeepInv(states, actions, i - 1);
      StepKeepsInv(states[i - 1], actions[i - 1]);
    }
  }

  // ---------------------------------------------------------------- names

  /** At any time at most one session that has not left the map bears a name. */
  lemma OneSessionPerName(states: seq<Broker>, actions: seq<Action>, i: nat, s: Sid, t: Sid)
    requires Run(states, actions) && i < |states|
    requires s in states[i].conns && Mapped(states[i].conns[s])
    requires t in states[i].conns && Mapped(states[i].conns[t])
    requires states[i].conns[s].name == states[i].conns[t].name
    ensures s == t
  {
    RunsKeepInv(states, actions, i);
  }

  lemma ListenerNames(b: Broker, s: Sid)
    requires NamesSound(b) && s in b.conns && EndsPush(b.conns[s].name)
    ensures !EndsPush(Base(b.conns[s].name))
  {
  }

  /** No "x-push-push" session ever exists. */
  lemma NoListenerOfListener(states: seq<Broker>, actions: seq<Action>, i: nat, n: string)
    requires Run(states, actions) && i < |states| && n in states[i].sessions
    ensures EndsPush(n) ==> !EndsPush(Base(n))
  {
    RunsKeepInv(states, actions, i);
    if EndsPush(n) {
      ListenerNames(states[i], states[i].sessions[n]);
    }
  }

  /** Paired teardown stops after one hop: the session torn down with its base is the base's listener,
    * and its own cleanup has no peer, so it never waits for another. */
  lemma TeardownIsOneHop(states: seq<Broker>, actions: seq<Action>, i: nat, s: Sid)
    requires Run(states, actions) && i < |states| && s in states[i].conns
    requires states[i].conns[s].phase.Removed? && states[i].conns[s].phase.peer.Some?
    ensures var p := states[i].conns[s].phase.peer.value;
            && p in states[i].conns
            && states[i].conns[p].name == states[i].conns[s].name + "-push"
            && PeerOf(states[i], p) == None
            && !states[i].conns[p].phase.AwaitPeer?
  {
    RunsKeepInv(states, actions, i);
    PushOfBase(states[i].conns[s].name);
  }

  // ---------------------------------------------------------------- what cleanup takes away

  lemma CleanupTakesOwnGrants(b: Broker, s: Sid)
    requires MapSound(b) && GrantsSound(b) && Enabled(b, CleanupStep(s))
    ensures forall r :: r in b.locks && r !in NextLocks(b, CleanupStep(s)) ==> b.locks[r].sid == s
    ensures forall x :: x in b.subs && x !in NextSubs(b, CleanupStep(s)) ==> b.subs[x].sid == s
  {
  }

  lemma CleanupTakesNoLaterClaim(b: Broker, s: Sid, t: int)
    requires MapSound(b) && OrderSound(b) && GrantsSound(b) && Enabled(b, CleanupStep(s))
    requires t in b.claims && t !in NextClaims(b, CleanupStep(s))
    ensures b.claims[t].sid in b.conns && b.conns[b.claims[t].sid].since <= b.conns[s].since
  {
    if b.claims[t].sid != s {
      assert Mapped(b.conns[s]) && b.conns[b.claims[t].sid].name == b.conns[s].name;
    }
  }

  /** Whatever a cleanup step of one session takes away, no later session of the same name obtained it.
    * Locks and subscriptions were its own; a claim was its own or that of an earlier session of the
    * name, which may have left it behind by disconnecting cleanly. */
  lemma CleanupTakesNothingLater(states: seq<Broker>, actions: seq<Action>, k: nat)
    requires Run(states, actions) && k < |actions| && actions[k].CleanupStep?
    ensures var b, b', s := states[k], states[k + 1], actions[k].sid;
            && (forall r :: r in b.locks && r !in b'.locks ==> b.locks[r].sid == s)
            && (forall x :: x in b.subs && x !in b'.subs ==> b.subs[x].sid == s)
            && (forall t :: t in b.claims && t !in b'.claims ==>
                              b.claims[t].sid in b.conns && b.conns[b.claims[t].sid].since <= b.conns[s].since)
  {
    RunsKeepInv(states, actions, k);
    var b, s := states[k], actions[k].sid;
    CleanupTakesOwnGrants(b, s);
    forall t | t in b.claims && t !in states[k + 1].claims
      ensures b.claims[t].sid in b.conns && b.conns[b.claims[t].sid].since <= b.conns[s].since
    {
      CleanupTakesNoLaterClaim(b, s, t);
    }
  }

  /** The claims step of a cleanup: a session that did not disconnect cleanly leaves no claim under its name,
    * and every other claim stays; after a clean disconnect all claims stay. */
  lemma CleanupRequeuesClaims(states: seq<Broker>, actions: seq<Action>, k: nat)
    requires Run(states, actions) && k < |actions| && actions[k].CleanupStep?
    requires states[k].conns[actions[k].sid].phase == LocksReleased
    ensures var c, claims, claims' := states[k].conns[actions[k].sid], states[k].claims, states[k + 1].claims;
            && (c.cleanDisconnect ==> claims' == claims)
            && (!c.cleanDisconnect ==>
                  && (forall t :: t in claims' <==> t in claims && claims[t].owner != c.name)
                  && (forall t :: t in claims' ==> claims'[t] == claims[t]))
  {
    assert states[k + 1] == Apply(states[k], actions[k]);
  }

  /** The order of a cleanup, one step after the other; a session whose listener it tears down is closed only
    * once that listener is. */
  lemma CleanupInOrder(b: Broker, s: Sid)
    requires Enabled(b, CleanupStep(s)) && !(b.conns[s].phase == Removed(Some(s)))
    ensures var c, next := b.conns[s], Apply(b, CleanupStep(s)).conns[s].phase;
            && (c.phase == Begun ==> next == LocksReleased)
            && (c.phase == LocksReleased ==> next == ClaimsRequeued)
            && (c.phase == ClaimsRequeued ==> next == Unsubscribed)
            && (c.phase == Unsubscribed ==> next == Removed(ListenerOf(b, s)))
            && (c.phase == Removed(None) ==> next == Closed)
            && (c.phase.Removed? && c.phase.peer.Some? ==> next == AwaitPeer(c.phase.peer.value))
            && (c.phase.AwaitPeer? ==> next == Closed && b.conns[c.phase.peerSid].phase == Closed)
  {
  }

  /** The listener a base session tears down: the one in the map under its name, if the session is still in
    * the map itself and owns its token. */
  function ListenerOf(b: Broker, s: Sid): Option<Sid>
    requires s in b.conns
  {
    var c := b.conns[s];
    if c.name in b.sessions && b.sessions[c.name] == s && c.ownsPushToken && !EndsPush(c.name) && c.name + "-push" in b.sessions
    then Some(b.sessions[c.name + "-push"]) else None
  }

  /** What the other steps of a cleanup take: the locks step the locks under the session's name, the
    * subscription step its subscriptions, the map step its own entry and the token it minted, and none takes
    * anything else. */
  lemma CleanupTakes(b: Broker, s: Sid)
    requires Enabled(b, CleanupStep(s))
    ensures var c, b' := b.conns[s], Apply(b, CleanupStep(s));
            && (forall r :: r in b'.locks <==> r in b.locks && !(c.phase == Begun && b.locks[r].owner == c.name))
            && (forall r :: r in b'.locks ==> b'.locks[r] == b.locks[r])
            && (forall k :: k in b'.subs <==> k in b.subs && !(c.phase == ClaimsRequeued && b.subs[k].owner == c.name))
            && (forall k :: k in b'.subs ==> b'.subs[k] == b.subs[k])
            && (c.phase != LocksReleased ==> b'.claims == b.claims)
            && (forall n :: n in b'.sessions <==> n in b.sessions && !(c.phase == Unsubscribed && n == c.name && b.sessions[n] == s))
            && (forall n :: n in b'.sessions ==> b'.sessions[n] == b.sessions[n])
            && (forall n :: n in b'.pushTokens <==>
                  n in b.pushTokens && !(c.phase == Unsubscribed && n == c.name && n in b.sessions && b.sessions[n] == s
                                         && c.ownsPushToken && !EndsPush(n)))
            && (forall n :: n in b'.pushTokens ==> b'.pushTokens[n] == b.pushTokens[n])
  {
  }

  /** A connection counts as cleanly disconnected from its disconnect command on, or from the moment the
    * cleanup of its base tears it down, and by nothing else. */
  lemma CleanExactlyBy(b: Broker, a: Action, s: Sid)
    requires Enabled(b, a) && s in b.conns
    ensures s in Apply(b, a).conns
    ensures Apply(b, a).conns[s].cleanDisconnect <==>
              || b.conns[s].cleanDisconnect
              || (a.Disconnect? && a.sid == s)
              || (a.CleanupStep? && b.conns[a.sid].phase == Removed(Some(s)))
  {
  }

  predicate PastClaims(c: Conn) { c.phase !in {Serving, Begun, LocksReleased} }

  predicate KeptCleanly(conns: map<Sid, Conn>, g: Grant)
  {
    g.sid in conns && PastClaims(conns[g.sid]) ==> conns[g.sid].cleanDisconnect
  }

  /** A claim outlives the requeueing step of its session only if that session disconnected cleanly. */
  ghost predicate ClaimsSound(b: Broker) { forall t :: t in b.claims ==> KeptCleanly(b.conns, b.claims[t]) }

  lemma ClaimStaysSound(b: Broker, a: Action, t: int)
    requires GrantsSound(b) && ClaimsSound(b) && Enabled(b, a) && t in NextClaims(b, a)
    ensures KeptCleanly(NextConns(b, a), NextClaims(b, a)[t])
  {
    var s := NextClaims(b, a)[t].sid;
    if s in b.conns {
      CleanExactlyBy(b, a, s);
      ConnAfter(b, a, s);
    }
  }

  lemma KeepsClaimsSound(b: Broker, a: Action)
    requires GrantsSound(b) && ClaimsSound(b) && Enabled(b, a)
    ensures ClaimsSound(Apply(b, a))
  {
    forall t | t in NextClaims(b, a)
      ensures KeptCleanly(NextConns(b, a), NextClaims(b, a)[t])
    {
      ClaimStaysSound(b, a, t);
    }
  }

  lemma RunsKeepGrants(states: seq<Broker>, actions: seq<Action>, i: nat)
    requires Run(states, actions) && i < |states|
    ensures GrantsSound(states[i])
  {
    RunsKeepInv(states, actions, i);
  }

  lemma {:induction false} RunsKeepClaimsSound(states: seq<Broker>, actions: seq<Action>, i: nat)
    requires Run(states, actions) && i < |states|
    ensures ClaimsSound(states[i])
  {
    if i > 0 {
      RunsKeepClaimsSound(states, actions, i - 1);
      RunsKeepGrants(states, actions, i - 1);
      KeepsClaimsSound(states[i - 1], actions[i - 1]);
    }
  }

  /** Over runs: a claim whose session has come past the requeueing of its cleanup is one of a session that
    * disconnected cleanly; a dropped connection keeps none. */
  lemma DroppedSessionKeepsNoClaim(states: seq<Broker>, actions: seq<Action>, i: nat, t: int)
    requires Run(states, actions) && i < |states| && t in states[i].claims
    ensures var s := states[i].claims[t].sid;
            s in states[i].conns
            && (states[i].conns[s].phase in {Serving, Begun, LocksReleased} || states[i].conns[s].cleanDisconnect)
  {
    RunsKeepClaimsSound(states, actions, i);
    RunsKeepGrants(states, actions, i);
  }

  /** Which requests of a connected session are granted: a lock unless another name holds it, a claim unless
    * the task is claimed, and the others always. */
  lemma RequestsGranted(b: Broker, sid: Sid, resource: string, task: int)
    requires sid in b.conns && b.conns[sid].phase == Serving && b.conns[sid].name != "" && resource != ""
    ensures Enabled(b, Lock(sid, resource)) <==> (resource in b.locks ==> b.locks[resource].owner == b.conns[sid].name)
    ensures Enabled(b, Claim(sid, task)) <==> task !in b.claims
    ensures Enabled(b, EndClaim(task)) <==> task in b.claims
    ensures Enabled(b, Unlock(sid, resource)) && Enabled(b, Subscribe(sid, resource))
    ensures Enabled(b, Disconnect(sid)) && Enabled(b, BeginCleanup(sid))
  {
  }

  /** A cleanup that has begun can always go on, but for the wait for the listener it tears down. */
  lemma CleanupGoesOn(b: Broker, sid: Sid)
    requires sid in b.conns && b.conns[sid].phase !in {Serving, Closed}
    ensures Enabled(b, CleanupStep(sid)) <==>
              (b.conns[sid].phase.AwaitPeer? ==>
                 b.conns[sid].phase.peerSid in b.conns && b.conns[b.conns[sid].phase.peerSid].phase == Closed)
  {
  }

  /** What each request of a session does to the locks, claims and subscriptions, and that it leaves
    * everything else alone. */
  lemma RequestsDo(b: Broker, a: Action)
    requires Enabled(b, a)
    ensures a.Lock? && a.resource !in b.locks ==>
              Apply(b, a) == b.(locks := b.locks[a.resource := Grant(b.conns[a.sid].name, a.sid)])
    ensures a.Lock? && a.resource in b.locks ==> Apply(b, a) == b && b.locks[a.resource].owner == b.conns[a.sid].name
    ensures a.Unlock? && a.resource in b.locks && b.locks[a.resource].owner == b.conns[a.sid].name ==>
              Apply(b, a) == b.(locks := b.locks - {a.resource})
    ensures a.Unlock? && !(a.resource in b.locks && b.locks[a.resource].owner == b.conns[a.sid].name) ==> Apply(b, a) == b
    ensures a.Claim? ==> Apply(b, a) == b.(claims := b.claims[a.task := Grant(b.conns[a.sid].name, a.sid)])
    ensures a.EndClaim? ==> Apply(b, a) == b.(claims := b.claims - {a.task})
    ensures a.Subscribe? ==>
              Apply(b, a) == b.(subs := b.subs[(a.topic, b.conns[a.sid].name) := Grant(b.conns[a.sid].name, a.sid)])
    ensures a.Disconnect? ==>
              Apply(b, a) == b.(conns := b.conns[a.sid := b.conns[a.sid].(cleanDisconnect := true)])
  {
  }

  /** Every held lock belongs to the session now connected under the owner's name, which obtained it. */
  lemma LockOwnersAreConnected(states: seq<Broker>, actions: seq<Action>, i: nat, r: string)
    requires Run(states, actions) && i < |states| && r in states[i].locks
    ensures var g := states[i].locks[r];
            g.owner in states[i].sessions && states[i].sessions[g.owner] == g.sid
  {
    RunsKeepInv(states, actions, i);
  }

  /** The two ways a lock can be given up. */
  predicate GivesUp(b: Broker, a: Action, r: string)
    requires r in b.locks
  {
    || (a.Unlock? && a.resource == r && a.sid == b.locks[r].sid)
    || (a.CleanupStep? && a.sid == b.locks[r].sid && a.sid in b.conns && b.conns[a.sid].phase == Begun)
  }

  lemma LockStays(b: Broker, a: Action, r: string)
    requires MapSound(b) && GrantsSound(b) && Enabled(b, a) && r in b.locks && !GivesUp(b, a, r)
    ensures r in NextLocks(b, a) && NextLocks(b, a)[r] == b.locks[r]
  {
  }

  /** A lock changes hands only after its holder released it or was cleaned up. */
  lemma {:induction false} LocksChangeHandsByRelease(states: seq<Broker>, actions: seq<Action>, i: nat, j: nat, r: string)
    requires Run(states, actions) && i <= j < |states| && r in states[i].locks
    requires forall k :: i <= k < j && r in states[k].locks ==> !GivesUp(states[k], actions[k], r)
    ensures r in states[j].locks && states[j].locks[r] == states[i].locks[r]
    decreases j
  {
    if i < j {
      LocksChangeHandsByRelease(states, actions, i, j - 1, r);
      RunsKeepInv(states, actions, j - 1);
      assert states[j] == Apply(states[j - 1], actions[j - 1]);
      LockStays(states[j - 1], actions[j - 1], r);
    }
  }

  // ---------------------------------------------------------------- push tokens

  /** The two ways a token can leave the map: a release presenting it, or the cleanup of the session
    * that minted it. */
  predicate Retires(b: Broker, a: Action, n: string)
    requires n in b.pushTokens
  {
    || (a.Release? && a.name == n && a.token == b.pushTokens[n].value)
    || (a.CleanupStep? && b.pushTokens[n].minter == BySession(a.sid))
  }

  lemma TokenStays(b: Broker, a: Action, n: string)
    requires MapSound(b) && TokensSound(b) && Enabled(b, a) && n in b.pushTokens && !Retires(b, a, n)
    ensures n in NextTokens(b, a) && NextTokens(b, a)[n] == b.pushTokens[n]
  {
  }

  lemma {:induction false} TokensLeaveOnlyByTheirOwn(states: seq<Broker>, actions: seq<Action>, i: nat, j: nat, n: string)
    requires Run(states, actions) && i <= j < |states| && n in states[i].pushTokens
    requires forall k :: i <= k < j && n in states[k].pushTokens ==> !Retires(states[k], actions[k], n)
    ensures n in states[j].pushTokens && states[j].pushTokens[n] == states[i].pushTokens[n]
    decreases j
  {
    if i < j {
      TokensLeaveOnlyByTheirOwn(states, actions, i, j - 1, n);
      RunsKeepInv(states, actions, j - 1);
      assert states[j] == Apply(states[j - 1], actions[j - 1]);
      TokenStays(states[j - 1], actions[j - 1], n);
    }
  }

  lemma ReservationStays(b: Broker, a: Action, n: string)
    requires MapSound(b) && TokensSound(b) && Enabled(b, a) && n in b.pushTokens && b.pushTokens[n].minter == ByReserve
    requires !(a.Release? && a.name == n && a.token == b.pushTokens[n].value)
    ensures n in NextTokens(b, a) && NextTokens(b, a)[n] == b.pushTokens[n]
  {
    TokenStays(b, a, n);
  }

  /** A reservation outlives any number of connects, disconnects and cleanups of the base agent: it
    * stays until a release presents it. */
  lemma {:induction false} ReservationOutlivesBase(states: seq<Broker>, actions: seq<Action>, i: nat, j: nat, n: string)
    requires Run(states, actions) && i <= j < |states| && n in states[i].pushTokens && states[i].pushTokens[n].minter == ByReserve
    requires forall k :: i <= k < j ==> !(actions[k].Release? && actions[k].name == n && actions[k].token == states[i].pushTokens[n].value)
    ensures n in states[j].pushTokens && states[j].pushTokens[n] == states[i].pushTokens[n]
    decreases j
  {
    if i < j {
      ReservationOutlivesBase(states, actions, i, j - 1, n);
      RunsKeepInv(states, actions, j - 1);
      ReservationStays(states[j - 1], actions[j - 1], n);
    }
  }

  /** The other way round: once the session that minted a token has left the map, so has the token. */
  lemma MintedTokenGoesWithSession(states: seq<Broker>, actions: seq<Action>, i: nat, n: string)
    requires Run(states, actions) && i < |states| && n in states[i].pushTokens && states[i].pushTokens[n].minter.BySession?
    ensures n in states[i].sessions && states[i].sessions[n] == states[i].pushTokens[n].minter.sid
  {
    RunsKeepInv(states, actions, i);
  }
}
