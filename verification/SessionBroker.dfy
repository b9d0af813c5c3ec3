/** The broker's shared maps and the lock manager as objects: the handlers of `router.go`, the steps of
  * `doCleanup` and `internal/locks/manager.go` change them in place, and are proved to be the steps of
  * `Sessions`. */
module SessionBroker {
  import opened Wrappers
  import opened Sessions
  import opened SessionTheorems

  datatype HandlerError =
    | NameRequired | NameTooLong | ReservedSuffix | AlreadyConnected | NameInUse | Forbidden
    | BaseNameRequired | TokenRequired | ResourceRequired | ResourceLocked(owner: string)

  lemma SomeResource(rs: set<string>)
    ensures rs == {} || exists r :: r in rs
  {
  }

  function NameRefusal(name: string): Option<HandlerError>
  {
    if name == "" then Some(NameRequired) else if |name| > MAX_FIELD_LENGTH then Some(NameTooLong) else None
  }

  /** The first complaint of handleConnect, in the order of its checks. */
  function ConnectRefusal(b: Broker, sid: Sid, name: string, pushListener: bool, token: string): (r: Option<HandlerError>)
    requires sid in b.conns
    ensures r.None? <==> ConnectAccepted(b, sid, name, pushListener, token)
  {
    if NameRefusal(name).Some? then NameRefusal(name)
    else if EndsPush(name) && !pushListener then Some(ReservedSuffix)
    else if b.conns[sid].name != "" then Some(AlreadyConnected)
    else if name in b.sessions && b.sessions[name] != sid then Some(NameInUse)
    else if EndsPush(name) && !(Base(name) in b.pushTokens && token != "" && token == b.pushTokens[Base(name)].value)
    then Some(Forbidden)
    else None
  }

  function ReserveRefusal(name: string): (r: Option<HandlerError>)
    ensures r.None? <==> BaseNameAccepted(name)
  {
    if NameRefusal(name).Some? then NameRefusal(name) else if EndsPush(name) then Some(BaseNameRequired) else None
  }

  /** A missing and a wrong token are told apart only by whether one was presented. */
  function ReleaseRefusal(b: Broker, name: string, token: string): (r: Option<HandlerError>)
    ensures r.None? <==> Enabled(b, Action.Release(name, token))
  {
    if ReserveRefusal(name).Some? then ReserveRefusal(name)
    else if token == "" then Some(TokenRequired)
    else if !(name in b.pushTokens && b.pushTokens[name].value == token) then Some(Forbidden)
    else None
  }

  /** The in-memory lock table. */
  class LockManager {
    var locks: map<string, Grant>

    constructor ()
      ensures locks == map[]
    {
      locks := map[];
    }

    /** Acquiring again what one already holds succeeds and changes nothing. */
    method Acquire(resource: string, owner: string, sid: Sid) returns (r: Result<(), HandlerError>)
      modifies this
      ensures r.Err? <==> resource in old(locks) && old(locks)[resource].owner != owner
      ensures r.Err? ==> r.error == ResourceLocked(old(locks)[resource].owner) && locks == old(locks)
      ensures r.Ok? ==> locks == if resource in old(locks) then old(locks) else old(locks)[resource := Grant(owner, sid)]
    {
      if resource in locks {
        if locks[resource].owner != owner {
          return Err(ResourceLocked(locks[resource].owner));
        }
        return Ok(());
      }
      locks := locks[resource := Grant(owner, sid)];
      return Ok(());
    }

    method Release(resource: string, owner: string)
      modifies this
      ensures locks == if resource in old(locks) && old(locks)[resource].owner == owner
                       then old(locks) - {resource} else old(locks)
    {
      if resource in locks && locks[resource].owner == owner {
        locks := locks - {resource};
      }
    }

    /** Deletes while ranging over the map, in any order: exactly the owner's locks go. */
    method ReleaseAll(owner: string)
      modifies this
      ensures locks == WithoutOwner(old(locks), owner)
    {
      var left := locks.Keys;
      while left != {}
        invariant left <= old(locks).Keys
        invariant forall r :: r in locks ==> r in old(locks) && locks[r] == old(locks)[r]
        invariant forall r :: r in old(locks) && (r in left || old(locks)[r].owner != owner) ==> r in locks
        invariant forall r :: r in locks && r !in left ==> locks[r].owner != owner
        decreases |left|
      {
        SomeResource(left);
        var r :| r in left;
        if locks[r].owner == owner {
          locks := locks - {r};
        }
        left := left - {r};
      }
    }
  }

  class BrokerState {
    var conns: map<Sid, Conn>
    var clock: nat
    var sessions: map<string, Sid>
    var pushTokens: map<string, PushToken>
    var locks: map<string, Grant>
    var claims: map<int, Grant>
    var subs: map<(string, string), Grant>

    function View(): Broker
      reads this
    {
      Broker(conns, clock, sessions, pushTokens, locks, claims, subs)
    }

    ghost predicate Valid()
      reads this
    {
      Inv(View())
    }

    constructor ()
      ensures View() == INITIAL && Valid()
    {
      conns, clock, sessions, pushTokens, locks, claims, subs := map[], 0, map[], map[], map[], map[], map[];
    }

    method Accept(sid: Sid)
      requires Valid() && sid !in conns
      modifies this
      ensures Valid() && View() == Apply(old(View()), Action.Accept(sid))
    {
      StepKeepsInv(View(), Action.Accept(sid));
      conns := conns[sid := Conn("", 0, false, false, Serving)];
    }

    /** The checks of handleConnect, each with its own refusal. */
    method CheckConnect(sid: Sid, name: string, pushListener: bool, token: string) returns (r: Option<HandlerError>)
      requires sid in conns
      ensures r == ConnectRefusal(View(), sid, name, pushListener, token)
    {
      if name == "" {
        return Some(NameRequired);
      }
      if |name| > MAX_FIELD_LENGTH {
        return Some(NameTooLong);
      }
      if EndsPush(name) && !pushListener {
        return Some(ReservedSuffix);
      }
      if conns[sid].name != "" {
        return Some(AlreadyConnected);
      }
      if name in sessions && sessions[name] != sid {
        return Some(NameInUse);
      }
      if EndsPush(name) {
        if Base(name) !in pushTokens || token == "" || token != pushTokens[Base(name)].value {
          return Some(Forbidden);
        }
      }
      return None;
    }

    /** What handleConnect writes once its checks have passed. */
    method Enter(sid: Sid, name: string, minted: string) returns (pushToken: string)
      requires sid in conns
      modifies this
      ensures View() == Entered(old(View()), sid, name, minted)
      ensures !EndsPush(name) ==> name in pushTokens && pushToken == pushTokens[name].value
    {
      pushToken := "";
      var owns := conns[sid].ownsPushToken;
      if !EndsPush(name) {
        if name in pushTokens {
          pushToken := pushTokens[name].value;
        } else {
          pushToken := minted;
          pushTokens := pushTokens[name := PushToken(minted, BySession(sid))];
          owns := true;
        }
      }
      conns := conns[sid := conns[sid].(name := name, since := clock, ownsPushToken := owns)];
      clock := clock + 1;
      sessions := sessions[name := sid];
    }

    /** Succeeds exactly when every check passes, returns the push token of a base name, and changes
      * nothing when it fails. */
    method HandleConnect(sid: Sid, name: string, pushListener: bool, token: string, minted: string)
      returns (r: Result<string, HandlerError>)
      requires Valid() && sid in conns && conns[sid].phase == Serving && minted != ""
      modifies this
      ensures Valid()
      ensures r.Ok? <==> ConnectAccepted(old(View()), sid, name, pushListener, token)
      ensures r.Ok? <==> && 0 < |name| <= 256 && old(conns)[sid].name == ""
                         && (name in old(sessions) ==> old(sessions)[name] == sid)
                         && (|name| >= 5 && name[|name| - 5..] == "-push" ==>
                               pushListener && name[..|name| - 5] in old(pushTokens) && token != ""
                               && token == old(pushTokens)[name[..|name| - 5]].value)
      ensures r.Ok? ==> View() == Apply(old(View()), Connect(sid, name, pushListener, token, minted))
      ensures r.Ok? && !EndsPush(name) ==> name in pushTokens && r.value == pushTokens[name].value
      ensures r.Err? ==> View() == old(View())
                         && Some(r.error) == ConnectRefusal(old(View()), sid, name, pushListener, token)
    {
      var refusal := CheckConnect(sid, name, pushListener, token);
      if refusal.Some? {
        return Err(refusal.value);
      }
      EnterStep(View(), sid, name, pushListener, token, minted);
      var pushToken := Enter(sid, name, minted);
      return Ok(pushToken);
    }

    /** handlePushReserve and GeneratePushToken: an existing token is returned as it is. */
    method HandlePushReserve(name: string, minted: string) returns (r: Result<string, HandlerError>)
      requires Valid() && minted != ""
      modifies this
      ensures Valid()
      ensures r.Ok? <==> BaseNameAccepted(name)
      ensures r.Ok? <==> 0 < |name| <= 256 && !(|name| >= 5 && name[|name| - 5..] == "-push")
      ensures r.Ok? ==> View() == Apply(old(View()), Reserve(name, minted))
                        && name in pushTokens && r.value == pushTokens[name].value
                        && (name in old(pushTokens) ==> View() == old(View()))
      ensures r.Err? ==> View() == old(View()) && Some(r.error) == ReserveRefusal(name)
    {
      if name == "" {
        return Err(NameRequired);
      }
      if |name| > MAX_FIELD_LENGTH {
        return Err(NameTooLong);
      }
      if EndsPush(name) {
        return Err(BaseNameRequired);
      }
      StepKeepsInv(View(), Reserve(name, minted));
      if name in pushTokens && pushTokens[name].value != "" {
        return Ok(pushTokens[name].value);
      }
      pushTokens := pushTokens[name := PushToken(minted, ByReserve)];
      return Ok(minted);
    }

    method HandlePushRelease(name: string, token: string) returns (r: Result<(), HandlerError>)
      requires Valid()
      modifies this
      ensures Valid()
      ensures r.Ok? <==> BaseNameAccepted(name) && token != "" && name in old(pushTokens) && old(pushTokens)[name].value == token
      ensures r.Ok? ==> View() == Apply(old(View()), Release(name, token)) && name !in pushTokens
      ensures r.Err? ==> View() == old(View()) && Some(r.error) == ReleaseRefusal(old(View()), name, token)
    {
      if name == "" {
        return Err(NameRequired);
      }
      if |name| > MAX_FIELD_LENGTH {
        return Err(NameTooLong);
      }
      if EndsPush(name) {
        return Err(BaseNameRequired);
      }
      if token == "" {
        return Err(TokenRequired);
      }
      if name !in pushTokens || token != pushTokens[name].value {
        return Err(Forbidden);
      }
      StepKeepsInv(View(), Release(name, token));
      pushTokens := pushTokens - {name};
      if name in sessions && !EndsPush(conns[sessions[name]].name) {
        conns := conns[sessions[name] := conns[sessions[name]].(ownsPushToken := false)];
      }
      return Ok(());
    }

    method BeginCleanup(sid: Sid)
      requires Valid() && sid in conns && conns[sid].phase == Serving
      modifies this
      ensures Valid() && View() == Apply(old(View()), Action.BeginCleanup(sid))
    {
      StepKeepsInv(View(), Action.BeginCleanup(sid));
      conns := conns[sid := conns[sid].(phase := if conns[sid].name == "" then Closed else Begun)];
    }

    /** What the section of doCleanup under the broker mutex writes. */
    method Unmap(sid: Sid) returns (peer: Option<Sid>)
      requires sid in conns
      modifies this
      ensures View() == Unmapped(old(View()), sid, peer)
      ensures peer == FoundPeer(old(View()), sid)
    {
      var name := conns[sid].name;
      peer := None;
      if name in sessions && sessions[name] == sid {
        sessions := sessions - {name};
        if !EndsPush(name) && conns[sid].ownsPushToken {
          pushTokens := pushTokens - {name};
          peer := if name + "-push" in sessions then Some(sessions[name + "-push"]) else None;
        }
      }
      conns := conns[sid := conns[sid].(phase := Removed(peer))];
    }

    /** The section of doCleanup under the broker mutex: the session leaves the map, its own token goes
      * with it, and a listener connected under its name is to be torn down. */
    method RemoveFromMap(sid: Sid) returns (peer: Option<Sid>)
      requires Valid() && sid in conns && conns[sid].phase == Unsubscribed
      modifies this
      ensures Valid() && View() == Apply(old(View()), CleanupStep(sid))
      ensures sid in conns && conns[sid].phase == Removed(peer)
      ensures conns[sid].name !in sessions
      ensures peer.Some? ==> peer.value in conns && conns[peer.value].name == conns[sid].name + "-push"
    {
      RemoveStep(View(), sid);
      peer := Unmap(sid);
    }
  }

  function Entered(b: Broker, sid: Sid, name: string, minted: string): Broker
    requires sid in b.conns
  {
    b.(conns := b.conns[sid := b.conns[sid].(name := name, since := b.clock,
                                             ownsPushToken := b.conns[sid].ownsPushToken || Mints(b, name))],
       clock := b.clock + 1, sessions := b.sessions[name := sid],
       pushTokens := if Mints(b, name) then b.pushTokens[name := PushToken(minted, BySession(sid))] else b.pushTokens)
  }

  lemma EnterStep(b: Broker, sid: Sid, name: string, pushListener: bool, token: string, minted: string)
    requires Inv(b) && sid in b.conns && b.conns[sid].phase == Serving && minted != ""
    requires ConnectAccepted(b, sid, name, pushListener, token)
    ensures Apply(b, Connect(sid, name, pushListener, token, minted)) == Entered(b, sid, name, minted)
    ensures Inv(Entered(b, sid, name, minted))
  {
    StepKeepsInv(b, Connect(sid, name, pushListener, token, minted));
  }

  /** The listener as it is looked up, after the session's own entry is gone. */
  function FoundPeer(b: Broker, sid: Sid): Option<Sid>
    requires sid in b.conns
  {
    if DropsToken(b, sid) && b.conns[sid].name + "-push" in b.sessions - {b.conns[sid].name}
    then Some(b.sessions[b.conns[sid].name + "-push"]) else None
  }

  function Unmapped(b: Broker, sid: Sid, peer: Option<Sid>): Broker
    requires sid in b.conns
  {
    b.(conns := b.conns[sid := b.conns[sid].(phase := Removed(peer))],
       sessions := if StillMapped(b, sid) then b.sessions - {b.conns[sid].name} else b.sessions,
       pushTokens := if DropsToken(b, sid) then b.pushTokens - {b.conns[sid].name} else b.pushTokens)
  }

  /** The listener found in the reduced map is the one in the full map, and bears the listener name. */
  lemma PeerFound(b: Broker, sid: Sid)
    requires MapSound(b) && sid in b.conns && b.conns[sid].name != ""
    ensures FoundPeer(b, sid) == PeerOf(b, sid)
    ensures FoundPeer(b, sid).Some? ==>
              var p := FoundPeer(b, sid).value;
              p in b.conns && p != sid && b.conns[p].name == b.conns[sid].name + "-push"
  {
  }

  lemma UnmapIsStep(b: Broker, sid: Sid)
    requires MapSound(b) && sid in b.conns && b.conns[sid].phase == Unsubscribed
    ensures Enabled(b, CleanupStep(sid)) && Apply(b, CleanupStep(sid)) == Unmapped(b, sid, FoundPeer(b, sid))
    ensures StillMapped(b, sid)
  {
    assert b.conns[sid].name != "";
    PeerFound(b, sid);
  }

  /** The locked section is the step of the protocol, and frees the name. */
  lemma RemoveStep(b: Broker, sid: Sid)
    requires Inv(b) && sid in b.conns && b.conns[sid].phase == Unsubscribed
    ensures var b' := Unmapped(b, sid, FoundPeer(b, sid));
            && Apply(b, CleanupStep(sid)) == b' && Inv(b')
            && b'.conns[sid].name !in b'.sessions
            && (FoundPeer(b, sid).Some? ==>
                  FoundPeer(b, sid).value in b'.conns
                  && b'.conns[FoundPeer(b, sid).value].name == b'.conns[sid].name + "-push")
  {
    UnmapIsStep(b, sid);
    StepKeepsInv(b, CleanupStep(sid));
    PeerFound(b, sid);
  }
}
