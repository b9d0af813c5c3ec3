/** Sessions, push tokens, locks, claims and subscriptions of the broker, over every interleaving of
  * requests with the separate steps of `doCleanup`.
  *
  * Each critical section of the source is one step. A session whose cleanup has begun issues no more
  * commands. History the code does not keep is recorded beside the data: which connection minted a
  * token, obtained a grant, and in which order connections took their names. */
module Sessions {
  import opened Wrappers

  type Sid = int

  const MAX_FIELD_LENGTH: nat := 256

  predicate EndsPush(n: string) { |n| >= 5 && n[|n| - 5..] == "-push" }

  function Base(n: string): string
    requires EndsPush(n)
  {
    n[..|n| - 5]
  }

  /** Where a connection stands: serving requests, or after which step of doCleanup. */
  datatype Phase =
    | Serving | Begun | LocksReleased | ClaimsRequeued | Unsubscribed
    | Removed(peer: Option<Sid>) | AwaitPeer(peerSid: Sid) | Closed

  /** A session object; `since` numbers the connects. The name is empty until connect. */
  datatype Conn = Conn(name: string, since: nat, ownsPushToken: bool, cleanDisconnect: bool, phase: Phase)

  datatype Minter = ByReserve | BySession(sid: Sid)

  datatype PushToken = PushToken(value: string, minter: Minter)

  /** A lock, claim or subscription: held under a name, obtained by a connection. */
  datatype Grant = Grant(owner: string, sid: Sid)

  datatype Broker = Broker(
    conns: map<Sid, Conn>, clock: nat,
    sessions: map<string, Sid>, pushTokens: map<string, PushToken>,
    locks: map<string, Grant>, claims: map<int, Grant>, subs: map<(string, string), Grant>)

  datatype Action =
    | Accept(sid: Sid)
    | Connect(sid: Sid, name: string, pushListener: bool, token: string, minted: string)
    | Disconnect(sid: Sid)
    | Reserve(name: string, minted: string)
    | Release(name: string, token: string)
    | Lock(sid: Sid, resource: string)
    | Unlock(sid: Sid, resource: string)
    | Claim(sid: Sid, task: int)
    | EndClaim(task: int)
    | Subscribe(sid: Sid, topic: string)
    | BeginCleanup(sid: Sid)
    | CleanupStep(sid: Sid)

  const INITIAL: Broker := Broker(map[], 0, map[], map[], map[], map[], map[])

  predicate ServingAs(b: Broker, sid: Sid) { sid in b.conns && b.conns[sid].phase == Serving && b.conns[sid].name != "" }

  /** The checks of handleConnect, in its order. */
  predicate ConnectAccepted(b: Broker, sid: Sid, name: string, pushListener: bool, token: string)
    requires sid in b.conns
  {
    && name != "" && |name| <= MAX_FIELD_LENGTH
    && (EndsPush(name) ==> pushListener)
    && b.conns[sid].name == ""
    && !(name in b.sessions && b.sessions[name] != sid)
    && (EndsPush(name) ==> Base(name) in b.pushTokens && token != "" && token == b.pushTokens[Base(name)].value)
  }

  predicate BaseNameAccepted(name: string) { name != "" && |name| <= MAX_FIELD_LENGTH && !EndsPush(name) }

  /** Requests that a check turns away are no steps; freshly drawn tokens are not empty. */
  predicate Enabled(b: Broker, a: Action)
  {
    match a
    case Accept(sid) => sid !in b.conns
    case Connect(sid, name, pushListener, token, minted) =>
      sid in b.conns && b.conns[sid].phase == Serving && minted != "" && ConnectAccepted(b, sid, name, pushListener, token)
    case Disconnect(sid) => ServingAs(b, sid)
    case Reserve(name, minted) => BaseNameAccepted(name) && minted != ""
    case Release(name, token) =>
      BaseNameAccepted(name) && token != "" && name in b.pushTokens && b.pushTokens[name].value == token
    case Lock(sid, resource) =>
      ServingAs(b, sid) && resource != "" && (resource in b.locks ==> b.locks[resource].owner == b.conns[sid].name)
    case Unlock(sid, resource) => ServingAs(b, sid) && resource != ""
    case Claim(sid, task) => ServingAs(b, sid) && task !in b.claims
    case EndClaim(task) => task in b.claims
    case Subscribe(sid, topic) => ServingAs(b, sid) && topic != ""
    case BeginCleanup(sid) => sid in b.conns && b.conns[sid].phase == Serving
    case CleanupStep(sid) =>
      sid in b.conns
      && match b.conns[sid].phase
         case Serving => false
         case Closed => false
         case AwaitPeer(p) => p in b.conns && b.conns[p].phase == Closed
         case _ => true
  }

  /** The connect mints a token of its own, and so owns it. */
  predicate Mints(b: Broker, name: string) { !EndsPush(name) && name !in b.pushTokens }

  /** The locked section of doCleanup finds the session still in the map. */
  predicate StillMapped(b: Broker, sid: Sid)
    requires sid in b.conns
  {
    b.conns[sid].name in b.sessions && b.sessions[b.conns[sid].name] == sid
  }

  predicate DropsToken(b: Broker, sid: Sid)
    requires sid in b.conns
  {
    StillMapped(b, sid) && !EndsPush(b.conns[sid].name) && b.conns[sid].ownsPushToken
  }

  function PeerOf(b: Broker, sid: Sid): Option<Sid>
    requires sid in b.conns
  {
    var push := b.conns[sid].name + "-push";
    if DropsToken(b, sid) && push in b.sessions then Some(b.sessions[push]) else None
  }

  /** The session steps of cleanup: a torn-down listener is marked as cleanly disconnected first. */
  function NextPhase(b: Broker, sid: Sid): Phase
    requires sid in b.conns
  {
    match b.conns[sid].phase
    case Serving => Serving
    case Begun => LocksReleased
    case LocksReleased => ClaimsRequeued
    case ClaimsRequeued => Unsubscribed
    case Unsubscribed => Removed(PeerOf(b, sid))
    case Removed(None) => Closed
    case Removed(Some(p)) => AwaitPeer(p)
    case AwaitPeer(_) => Closed
    case Closed => Closed
  }

  function MarkClean(conns: map<Sid, Conn>, p: Sid): map<Sid, Conn>
  {
    if p in conns then conns[p := conns[p].(cleanDisconnect := true)] else conns
  }

  function NextConns(b: Broker, a: Action): map<Sid, Conn>
    requires Enabled(b, a)
  {
    match a
    case Accept(sid) => b.conns[sid := Conn("", 0, false, false, Serving)]
    case Connect(sid, name, _, _, _) =>
      b.conns[sid := b.conns[sid].(name := name, since := b.clock, ownsPushToken := b.conns[sid].ownsPushToken || Mints(b, name))]
    case Disconnect(sid) => b.conns[sid := b.conns[sid].(cleanDisconnect := true)]
    case Release(name, _) =>
      if name in b.sessions && b.sessions[name] in b.conns && !EndsPush(b.conns[b.sessions[name]].name)
      then b.conns[b.sessions[name] := b.conns[b.sessions[name]].(ownsPushToken := false)] else b.conns
    case BeginCleanup(sid) =>
      b.conns[sid := b.conns[sid].(phase := if b.conns[sid].name == "" then Closed else Begun)]
    case CleanupStep(sid) =>
      var conns := match b.conns[sid].phase case Removed(Some(p)) => MarkClean(b.conns, p) case _ => b.conns;
      conns[sid := conns[sid].(phase := NextPhase(b, sid))]
    case _ => b.conns
  }

  function NextSessions(b: Broker, a: Action): map<string, Sid>
    requires Enabled(b, a)
  {
    match a
    case Connect(sid, name, _, _, _) => b.sessions[name := sid]
    case CleanupStep(sid) =>
      if b.conns[sid].phase == Unsubscribed && StillMapped(b, sid) then b.sessions - {b.conns[sid].name} else b.sessions
    case _ => b.sessions
  }

  function NextTokens(b: Broker, a: Action): map<string, PushToken>
    requires Enabled(b, a)
  {
    match a
    case Connect(sid, name, _, _, minted) =>
      if Mints(b, name) then b.pushTokens[name := PushToken(minted, BySession(sid))] else b.pushTokens
    case Reserve(name, minted) =>
      if name in b.pushTokens && b.pushTokens[name].value != "" then b.pushTokens
      else b.pushTokens[name := PushToken(minted, ByReserve)]
    case Release(name, _) => b.pushTokens - {name}
    case CleanupStep(sid) =>
      if b.conns[sid].phase == Unsubscribed && DropsToken(b, sid) then b.pushTokens - {b.conns[sid].name} else b.pushTokens
    case _ => b.pushTokens
  }

  function WithoutOwner<K>(grants: map<K, Grant>, owner: string): map<K, Grant>
  {
    map k | k in grants && grants[k].owner != owner :: grants[k]
  }

  function NextLocks(b: Broker, a: Action): map<string, Grant>
    requires Enabled(b, a)
  {
    match a
    case Lock(sid, resource) =>
      if resource in b.locks then b.locks else b.locks[resource := Grant(b.conns[sid].name, sid)]
    case Unlock(sid, resource) =>
      if resource in b.locks && b.locks[resource].owner == b.conns[sid].name then b.locks - {resource} else b.locks
    case CleanupStep(sid) =>
      if b.conns[sid].phase == Begun then WithoutOwner(b.locks, b.conns[sid].name) else b.locks
    case _ => b.locks
  }

  /** Claims of a name are requeued only when its session ends without a disconnect command. */
  function NextClaims(b: Broker, a: Action): map<int, Grant>
    requires Enabled(b, a)
  {
    match a
    case Claim(sid, task) => b.claims[task := Grant(b.conns[sid].name, sid)]
    case EndClaim(task) => b.claims - {task}
    case CleanupStep(sid) =>
      if b.conns[sid].phase == LocksReleased && !b.conns[sid].cleanDisconnect
      then WithoutOwner(b.claims, b.conns[sid].name) else b.claims
    case _ => b.claims
  }

  function NextSubs(b: Broker, a: Action): map<(string, string), Grant>
    requires Enabled(b, a)
  {
    match a
    case Subscribe(sid, topic) => b.subs[(topic, b.conns[sid].name) := Grant(b.conns[sid].name, sid)]
    case CleanupStep(sid) =>
      if b.conns[sid].phase == ClaimsRequeued then WithoutOwner(b.subs, b.conns[sid].name) else b.subs
    case _ => b.subs
  }

  function Apply(b: Broker, a: Action): Broker
    requires Enabled(b, a)
  {
    Broker(NextConns(b, a), if a.Connect? then b.clock + 1 else b.clock,
           NextSessions(b, a), NextTokens(b, a), NextLocks(b, a), NextClaims(b, a), NextSubs(b, a))
  }

  ghost predicate Run(states: seq<Broker>, actions: seq<Action>)
  {
    && |states| == |actions| + 1
    && states[0] == INITIAL
    && forall i :: 0 <= i < |actions| ==> Enabled(states[i], actions[i]) && states[i + 1] == Apply(states[i], actions[i])
  }

  // ---------------------------------------------------------------- invariant

  /** Connected, and not yet taken out of the session map by its own cleanup. */
  predicate Mapped(c: Conn)
  {
    c.name != "" && c.phase in {Serving, Begun, LocksReleased, ClaimsRequeued, Unsubscribed}
  }

  ghost predicate MapSound(b: Broker)
  {
    && (forall s :: s in b.conns && Mapped(b.conns[s]) ==> b.conns[s].name in b.sessions && b.sessions[b.conns[s].name] == s)
    && (forall n :: n in b.sessions ==> b.sessions[n] in b.conns && Mapped(b.conns[b.sessions[n]]) && b.conns[b.sessions[n]].name == n)
    && (forall s :: s in b.conns && b.conns[s].name == "" ==> b.conns[s].phase in {Serving, Closed} && !b.conns[s].ownsPushToken)
  }

  /** A session owns the token of its name exactly when it minted the one in the map. */
  ghost predicate TokensSound(b: Broker)
  {
    && (forall n :: n in b.pushTokens ==> n != "" && !EndsPush(n) && b.pushTokens[n].value != "")
    && (forall s :: s in b.conns && Mapped(b.conns[s]) && b.conns[s].ownsPushToken ==>
                      b.conns[s].name in b.pushTokens && b.pushTokens[b.conns[s].name].minter == BySession(s))
    && (forall n :: n in b.pushTokens && b.pushTokens[n].minter.BySession? ==>
                      var s := b.pushTokens[n].minter.sid;
                      s in b.conns && b.conns[s].name == n && Mapped(b.conns[s]) && b.conns[s].ownsPushToken)
  }

  /** A listener's base name is never itself a listener name; only a base tears down a listener. */
  ghost predicate NamesSound(b: Broker)
  {
    && (forall s :: s in b.conns && EndsPush(b.conns[s].name) ==>
                      !EndsPush(Base(b.conns[s].name)) && !b.conns[s].ownsPushToken)
    && (forall s :: s in b.conns && EndsPush(b.conns[s].name) ==>
                      b.conns[s].phase != AwaitPeer(s) && !b.conns[s].phase.AwaitPeer?
                      && (b.conns[s].phase.Removed? ==> b.conns[s].phase.peer.None?))
    && (forall s :: s in b.conns && b.conns[s].phase.AwaitPeer? ==> b.conns[s].phase.peerSid in b.conns)
    && (forall s :: s in b.conns && b.conns[s].phase.Removed? && b.conns[s].phase.peer.Some? ==>
                      b.conns[s].phase.peer.value in b.conns
                      && b.conns[b.conns[s].phase.peer.value].name == b.conns[s].name + "-push")
  }

  /** Among the connections that ever used a name, the one in the map is the latest. */
  ghost predicate OrderSound(b: Broker)
  {
    && (forall s :: s in b.conns && b.conns[s].name != "" ==> b.conns[s].since < b.clock)
    && (forall s, t :: s in b.conns && t in b.conns && s != t && Mapped(b.conns[s]) && b.conns[t].name == b.conns[s].name ==>
                         b.conns[t].since < b.conns[s].since)
  }

  predicate HeldBy(conns: map<Sid, Conn>, g: Grant, phases: set<Phase>)
  {
    g.sid in conns && conns[g.sid].name == g.owner && g.owner != "" && conns[g.sid].phase in phases
  }

  ghost predicate GrantsSound(b: Broker)
  {
    && (forall r :: r in b.locks ==> HeldBy(b.conns, b.locks[r], {Serving, Begun}))
    && (forall k :: k in b.subs ==> HeldBy(b.conns, b.subs[k], {Serving, Begun, LocksReleased, ClaimsRequeued}))
    && (forall t :: t in b.claims ==> b.claims[t].owner != "" && b.claims[t].sid in b.conns
                                      && b.conns[b.claims[t].sid].name == b.claims[t].owner)
  }

  ghost predicate Inv(b: Broker)
  {
    MapSound(b) && TokensSound(b) && NamesSound(b) && OrderSound(b) && GrantsSound(b)
  }
}
