/** `send --await-ack`: the senders and ackers of the broker meet in the waiter map, one critical
  * section at a time, while timeouts and shutdown may cut in anywhere. */
module AwaitAck {
  import opened Wrappers

  type MsgId = int
  type Chan = int

  /** A sender that asked to wait: message stored, waiter registered, or on its way out after a
    * timeout or shutdown. */
  datatype Sender = Registering(id: MsgId) | Waiting(id: MsgId, ch: Chan) | Leaving(id: MsgId, ch: Chan)

  /** An acker past the store's Ack: about to look for a waiter, or about to close its channel. */
  datatype Acker = Accepted(id: MsgId) | Closing(ch: Chan)

  /** `closes` counts the closes of every channel made; `acks` lists the accepted acks with the caller;
    * `okReplies` the messages whose sender was told the ack came. */
  datatype Broker = Broker(
    recipient: map<MsgId, string>, waiters: map<MsgId, Chan>, stopped: bool,
    senders: map<int, Sender>, ackers: map<int, Acker>,
    closes: map<Chan, nat>, acks: set<(MsgId, string)>, okReplies: set<MsgId>)

  datatype Action =
    | Send(t: int, id: MsgId, to: string)
    | Register(t: int, ch: Chan)
    | Ack(u: int, id: MsgId, caller: string)
    | Lookup(u: int)
    | Close(u: int)
    | Wake(t: int)
    | TimeOut(t: int)
    | SeeStop(t: int)
    | Leave(t: int)
    | Stop

  const INITIAL: Broker := Broker(map[], map[], false, map[], map[], map[], {}, {})

  /** The store accepts an ack only from the message's recipient. A sender wakes when its channel is
    * closed; the timeout may fire at any time, even then. */
  predicate Enabled(b: Broker, a: Action)
  {
    match a
    case Send(t, id, _) => t !in b.senders && id !in b.recipient
    case Register(t, ch) => t in b.senders && b.senders[t].Registering? && ch !in b.closes
    case Ack(u, id, caller) => u !in b.ackers && id in b.recipient && b.recipient[id] == caller
    case Lookup(u) => u in b.ackers && b.ackers[u].Accepted?
    case Close(u) => u in b.ackers && b.ackers[u].Closing? && b.ackers[u].ch in b.closes
    case Wake(t) =>
      t in b.senders && b.senders[t].Waiting? && b.senders[t].ch in b.closes && b.closes[b.senders[t].ch] > 0
    case TimeOut(t) => t in b.senders && b.senders[t].Waiting?
    case SeeStop(t) => t in b.senders && b.senders[t].Waiting? && b.stopped
    case Leave(t) => t in b.senders && b.senders[t].Leaving?
    case Stop => !b.stopped
  }

  /** Registration adds an entry; the acker who looks it up and the sender who leaves delete it. */
  function NextWaiters(b: Broker, a: Action): map<MsgId, Chan>
    requires Enabled(b, a)
  {
    match a
    case Register(t, ch) => b.waiters[b.senders[t].id := ch]
    case Lookup(u) => b.waiters - {b.ackers[u].id}
    case Leave(t) => b.waiters - {b.senders[t].id}
    case _ => b.waiters
  }

  function NextSenders(b: Broker, a: Action): map<int, Sender>
    requires Enabled(b, a)
  {
    match a
    case Send(t, id, _) => b.senders[t := Registering(id)]
    case Register(t, ch) => b.senders[t := Waiting(b.senders[t].id, ch)]
    case TimeOut(t) => b.senders[t := Leaving(b.senders[t].id, b.senders[t].ch)]
    case SeeStop(t) => b.senders[t := Leaving(b.senders[t].id, b.senders[t].ch)]
    case Wake(t) => b.senders - {t}
    case Leave(t) => b.senders - {t}
    case _ => b.senders
  }

  function NextAckers(b: Broker, a: Action): map<int, Acker>
    requires Enabled(b, a)
  {
    match a
    case Ack(u, id, _) => b.ackers[u := Accepted(id)]
    case Lookup(u) =>
      if b.ackers[u].id in b.waiters then b.ackers[u := Closing(b.waiters[b.ackers[u].id])] else b.ackers - {u}
    case Close(u) => b.ackers - {u}
    case _ => b.ackers
  }

  function NextCloses(b: Broker, a: Action): map<Chan, nat>
    requires Enabled(b, a)
  {
    match a
    case Register(_, ch) => b.closes[ch := 0]
    case Close(u) => b.closes[b.ackers[u].ch := b.closes[b.ackers[u].ch] + 1]
    case _ => b.closes
  }

  function Apply(b: Broker, a: Action): Broker
    requires Enabled(b, a)
  {
    Broker(if a.Send? then b.recipient[a.id := a.to] else b.recipient, NextWaiters(b, a), b.stopped || a.Stop?,
           NextSenders(b, a), NextAckers(b, a), NextCloses(b, a),
           if a.Ack? then b.acks + {(a.id, a.caller)} else b.acks,
           if a.Wake? then b.okReplies + {b.senders[a.t].id} else b.okReplies)
  }

  ghost predicate Run(states: seq<Broker>, actions: seq<Action>)
  {
    && |states| == |actions| + 1
    && states[0] == INITIAL
    && forall i :: 0 <= i < |actions| ==> Enabled(states[i], actions[i])
                                           && states[i + 1] == Apply(states[i], actions[i])
  }

  /** The sender `t` is inside handleSend with this waiter. */
  predicate Owns(b: Broker, t: int, id: MsgId, ch: Chan)
  {
    t in b.senders && (b.senders[t] == Waiting(id, ch) || b.senders[t] == Leaving(id, ch))
  }

  predicate IsClosing(b: Broker, u: int, ch: Chan) { u in b.ackers && b.ackers[u] == Closing(ch) }

  predicate IsEntry(b: Broker, id: MsgId, ch: Chan) { id in b.waiters && b.waiters[id] == ch }

  /** A sender past its registration: the channel is made. */
  predicate HasChannel(b: Broker, t: int) { t in b.senders && !b.senders[t].Registering? }

  /** Each sender waits for its own message on its own channel. */
  ghost predicate SendersSound(b: Broker)
  {
    && (forall t :: t in b.senders ==> b.senders[t].id in b.recipient)
    && (forall s, t :: s in b.senders && t in b.senders && b.senders[s].id == b.senders[t].id ==> s == t)
    && (forall t :: HasChannel(b, t) ==> b.senders[t].ch in b.closes)
    && (forall s, t :: HasChannel(b, s) && HasChannel(b, t) && b.senders[s].ch == b.senders[t].ch ==> s == t)
  }

  ghost predicate WaitersSound(b: Broker)
  {
    && (forall id :: id in b.waiters ==> exists t :: Owns(b, t, id, b.waiters[id]))
    && (forall id :: id in b.waiters ==> b.waiters[id] in b.closes && b.closes[b.waiters[id]] == 0)
    && (forall i, j :: i in b.waiters && j in b.waiters && b.waiters[i] == b.waiters[j] ==> i == j)
  }

  /** A channel is registered, about to be closed by one acker, or closed, and never two of these. */
  ghost predicate ChannelsSound(b: Broker)
  {
    && (forall u, ch :: IsClosing(b, u, ch) ==> ch in b.closes && b.closes[ch] == 0)
    && (forall u, v, ch :: IsClosing(b, u, ch) && IsClosing(b, v, ch) ==> u == v)
    && (forall u, id :: id in b.waiters ==> !IsClosing(b, u, b.waiters[id]))
    && (forall ch :: ch in b.closes ==> b.closes[ch] <= 1)
  }

  predicate AckedByRecipient(b: Broker, id: MsgId) { id in b.recipient && (id, b.recipient[id]) in b.acks }

  ghost predicate AckersSound(b: Broker)
  {
    && (forall u :: u in b.ackers && b.ackers[u].Accepted? ==> AckedByRecipient(b, b.ackers[u].id))
    && (forall id :: id in b.okReplies ==> AckedByRecipient(b, id))
  }

  /** The channel has been closed, or some acker is about to close it. */
  ghost predicate Found(b: Broker, ch: Chan)
  {
    (ch in b.closes && b.closes[ch] == 1) || exists u :: IsClosing(b, u, ch)
  }

  /** A waiting sender's entry holds its channel; once the entry is gone, an acker has found it. */
  ghost predicate WakesSound(b: Broker)
  {
    && (forall t :: t in b.senders && b.senders[t].Registering? ==> b.senders[t].id !in b.waiters)
    && (forall t :: t in b.senders && b.senders[t].Waiting? ==> Watched(b, b.senders[t].id, b.senders[t].ch))
  }

  ghost predicate Watched(b: Broker, id: MsgId, ch: Chan)
  {
    if id in b.waiters then b.waiters[id] == ch else Found(b, ch) && AckedByRecipient(b, id)
  }

  ghost predicate Inv(b: Broker)
  {
    SendersSound(b) && WaitersSound(b) && ChannelsSound(b) && AckersSound(b) && WakesSound(b)
  }

  lemma KeepsSenders(b: Broker, a: Action)
    requires SendersSound(b) && Enabled(b, a)
    ensures SendersSound(Apply(b, a))
  {
  }

  /** Who is inside handleSend with an entry stays inside until it leaves or the entry goes. */
  lemma OwnersStay(b: Broker, a: Action, id: MsgId)
    requires SendersSound(b) && WaitersSound(b) && ChannelsSound(b) && Enabled(b, a) && id in NextWaiters(b, a)
    ensures exists t :: Owns(Apply(b, a), t, id, NextWaiters(b, a)[id])
  {
    if a.Register? && id == b.senders[a.t].id {
      assert Owns(Apply(b, a), a.t, id, a.ch);
    } else {
      var t :| Owns(b, t, id, b.waiters[id]);
      assert Owns(Apply(b, a), t, id, b.waiters[id]);
    }
  }

  lemma EntriesStayOpen(b: Broker, a: Action, id: MsgId)
    requires WaitersSound(b) && ChannelsSound(b) && Enabled(b, a) && id in NextWaiters(b, a)
    ensures NextWaiters(b, a)[id] in NextCloses(b, a) && NextCloses(b, a)[NextWaiters(b, a)[id]] == 0
  {
    assert a.Close? ==> IsClosing(b, a.u, b.ackers[a.u].ch);
  }

  lemma EntriesStayApart(b: Broker, a: Action, i: MsgId, j: MsgId)
    requires WaitersSound(b) && Enabled(b, a) && i in NextWaiters(b, a) && j in NextWaiters(b, a)
    ensures NextWaiters(b, a)[i] == NextWaiters(b, a)[j] ==> i == j
  {
  }

  lemma KeepsWaiters(b: Broker, a: Action)
    requires SendersSound(b) && WaitersSound(b) && ChannelsSound(b) && Enabled(b, a)
    ensures WaitersSound(Apply(b, a))
  {
    forall id | id in NextWaiters(b, a)
      ensures exists t :: Owns(Apply(b, a), t, id, NextWaiters(b, a)[id])
      ensures NextWaiters(b, a)[id] in NextCloses(b, a) && NextCloses(b, a)[NextWaiters(b, a)[id]] == 0
    {
      OwnersStay(b, a, id);
      EntriesStayOpen(b, a, id);
    }
    forall i, j | i in NextWaiters(b, a) && j in NextWaiters(b, a) && NextWaiters(b, a)[i] == NextWaiters(b, a)[j]
      ensures i == j
    {
      EntriesStayApart(b, a, i, j);
    }
  }

  lemma KeepsChannels(b: Broker, a: Action)
    requires WaitersSound(b) && ChannelsSound(b) && Enabled(b, a)
    ensures ChannelsSound(Apply(b, a))
  {
    assert a.Close? ==> IsClosing(b, a.u, b.ackers[a.u].ch);
    forall u, ch | IsClosing(Apply(b, a), u, ch)
      ensures IsClosing(b, u, ch) || (a.Lookup? && a.u == u && IsEntry(b, b.ackers[u].id, ch))
    {
    }
  }

  lemma KeepsAckers(b: Broker, a: Action)
    requires Inv(b) && Enabled(b, a)
    ensures AckersSound(Apply(b, a))
  {
  }

  lemma FoundStays(b: Broker, a: Action, ch: Chan)
    requires ChannelsSound(b) && Enabled(b, a) && Found(b, ch)
    ensures Found(Apply(b, a), ch)
  {
    assert a.Close? ==> IsClosing(b, a.u, b.ackers[a.u].ch);
    if ch !in b.closes || b.closes[ch] != 1 {
      var u :| IsClosing(b, u, ch);
      assert (a.Close? && a.u == u) || IsClosing(Apply(b, a), u, ch);
    }
  }

  lemma WatchedStays(b: Broker, a: Action, t: int)
    requires Inv(b) && Enabled(b, a) && t in b.senders && b.senders[t].Waiting?
    requires t in NextSenders(b, a) && NextSenders(b, a)[t] == b.senders[t]
    ensures Watched(Apply(b, a), b.senders[t].id, b.senders[t].ch)
  {
    var id, ch := b.senders[t].id, b.senders[t].ch;
    assert Watched(b, id, ch);
    if id !in b.waiters {
      FoundStays(b, a, ch);
    } else if a.Lookup? && b.ackers[a.u].id == id {
      assert IsClosing(Apply(b, a), a.u, ch);
    }
  }

  lemma KeepsWakes(b: Broker, a: Action)
    requires Inv(b) && Enabled(b, a)
    ensures WakesSound(Apply(b, a))
  {
    var b' := Apply(b, a);
    forall t | t in b'.senders && b'.senders[t].Waiting?
      ensures Watched(b', b'.senders[t].id, b'.senders[t].ch)
    {
      if t in b.senders && b.senders[t] == b'.senders[t] {
        WatchedStays(b, a, t);
      }
    }
  }

  lemma StepKeepsInv(b: Broker, a: Action)
    requires Inv(b) && Enabled(b, a)
    ensures Inv(Apply(b, a))
  {
    KeepsSenders(b, a);
    KeepsWaiters(b, a);
    KeepsChannels(b, a);
    KeepsAckers(b, a);
    KeepsWakes(b, a);
  }

  lemma {:induction false} RunsKeepInv(states: seq<Broker>, actions: seq<Action>, i: nat)
    requires Run(states, actions) && i < |states|
    ensures Inv(states[i])
  {
    if i > 0 {
      RunsKeepInv(states, actions, i - 1);
      StepKeepsInv(states[i - 1], actions[i - 1]);
    }
  }

  // ---------------------------------------------------------------- main results

  /** No channel is closed twice, so `close` never panics. */
  lemma ClosedAtMostOnce(states: seq<Broker>, actions: seq<Action>, i: nat, ch: Chan)
    requires Run(states, actions) && i < |states| && ch in states[i].closes
    ensures states[i].closes[ch] <= 1
    ensures forall u :: IsClosing(states[i], u, ch) ==> states[i].closes[ch] == 0
  {
    RunsKeepInv(states, actions, i);
  }

  /** Every entry of the waiter map belongs to a handleSend that has not returned. */
  lemma NoEntryOutlivesItsSend(states: seq<Broker>, actions: seq<Action>, i: nat, id: MsgId)
    requires Run(states, actions) && i < |states| && id in states[i].waiters
    ensures exists t :: Owns(states[i], t, id, states[i].waiters[id])
  {
    RunsKeepInv(states, actions, i);
  }

  /** An OK reply means that the store accepted an ack of this message from its named recipient. */
  lemma OkMeansAcked(states: seq<Broker>, actions: seq<Action>, i: nat, id: MsgId)
    requires Run(states, actions) && i < |states| && id in states[i].okReplies
    ensures exists k :: 0 <= k < i && actions[k].Ack? && actions[k].id == id && id in states[i].recipient
                        && actions[k].caller == states[i].recipient[id]
  {
    RunsKeepInv(states, actions, i);
    AcksHappened(states, actions, i, id, states[i].recipient[id]);
  }

  lemma {:induction false} AcksHappened(states: seq<Broker>, actions: seq<Action>, i: nat, id: MsgId, caller: string)
    requires Run(states, actions) && i < |states| && (id, caller) in states[i].acks
    ensures exists k :: 0 <= k < i && actions[k].Ack? && actions[k].id == id && actions[k].caller == caller
  {
    assert i > 0;
    assert states[i] == Apply(states[i - 1], actions[i - 1]);
    if (id, caller) in states[i - 1].acks {
      AcksHappened(states, actions, i - 1, id, caller);
    } else {
      assert actions[i - 1].Ack? && actions[i - 1].id == id;
    }
  }

  /** Some acker looked for a waiter of this message at step k or later, before step i. */
  ghost predicate LookedFor(states: seq<Broker>, actions: seq<Action>, k: nat, i: nat, id: MsgId)
    requires Run(states, actions) && i < |states|
  {
    exists j :: k <= j < i && actions[j].Lookup? && states[j].ackers[actions[j].u].id == id
  }

  lemma LookedForStep(states: seq<Broker>, actions: seq<Action>, k: nat, i: nat, id: MsgId)
    requires Run(states, actions) && k < i < |states|
    ensures LookedFor(states, actions, k, i, id)
            <==> LookedFor(states, actions, k, i - 1, id)
                 || (actions[i - 1].Lookup? && states[i - 1].ackers[actions[i - 1].u].id == id)
  {
  }

  predicate Waits(b: Broker, t: int, id: MsgId, ch: Chan) { t in b.senders && b.senders[t] == Waiting(id, ch) }

  /** Only a registration makes a waiting sender, and only on a new channel. */
  lemma WaitedBefore(b: Broker, a: Action, t: int, id: MsgId, ch: Chan)
    requires Enabled(b, a) && ch in b.closes && Waits(Apply(b, a), t, id, ch)
    ensures Waits(b, t, id, ch)
  {
  }

  /** One step of a sender that goes on waiting: its entry goes exactly when an acker looks it up. */
  lemma EntryStep(b: Broker, a: Action, t: int, id: MsgId, ch: Chan)
    requires SendersSound(b) && Enabled(b, a) && Waits(b, t, id, ch) && Waits(Apply(b, a), t, id, ch)
    ensures id in Apply(b, a).waiters <==> id in b.waiters && !(a.Lookup? && b.ackers[a.u].id == id)
  {
  }

  /** A sender that waits on a channel has done so since the channel was made. */
  lemma {:induction false} WaitedAllAlong(states: seq<Broker>, actions: seq<Action>, k: nat, i: nat, t: int, id: MsgId, ch: Chan)
    requires Run(states, actions) && k <= i < |states| && ch in states[k].closes && Waits(states[i], t, id, ch)
    ensures forall m :: k <= m <= i ==> Waits(states[m], t, id, ch)
    decreases i
  {
    if k < i {
      ChannelsRemain(states, actions, k, i - 1, ch);
      assert states[i] == Apply(states[i - 1], actions[i - 1]);
      WaitedBefore(states[i - 1], actions[i - 1], t, id, ch);
      WaitedAllAlong(states, actions, k, i - 1, t, id, ch);
    }
  }

  lemma RunsKeepSenders(states: seq<Broker>, actions: seq<Action>, i: nat)
    requires Run(states, actions) && i < |states|
    ensures SendersSound(states[i])
  {
    RunsKeepInv(states, actions, i);
  }

  /** While the sender waits, its entry is there until the first look. */
  lemma {:induction false} EntryUntilLook(states: seq<Broker>, actions: seq<Action>, k: nat, i: nat, t: int, id: MsgId, ch: Chan)
    requires Run(states, actions) && k <= i < |states| && id in states[k].waiters
    requires forall m :: k <= m <= i ==> Waits(states[m], t, id, ch)
    ensures id in states[i].waiters <==> !LookedFor(states, actions, k, i, id)
    decreases i
  {
    if k < i {
      EntryUntilLook(states, actions, k, i - 1, t, id, ch);
      RunsKeepSenders(states, actions, i - 1);
      assert states[i] == Apply(states[i - 1], actions[i - 1]);
      EntryStep(states[i - 1], actions[i - 1], t, id, ch);
      LookedForStep(states, actions, k, i, id);
    }
  }

  lemma {:induction false} ChannelsRemain(states: seq<Broker>, actions: seq<Action>, k: nat, i: nat, ch: Chan)
    requires Run(states, actions) && k <= i < |states| && ch in states[k].closes
    ensures ch in states[i].closes
    decreases i
  {
    if k < i {
      ChannelsRemain(states, actions, k, i - 1, ch);
      assert states[i] == Apply(states[i - 1], actions[i - 1]);
    }
  }

  /** The sender can wake, or an acker's close, after which it can, is still to come. */
  ghost predicate WakeAssured(b: Broker, t: int)
    requires t in b.senders && b.senders[t].Waiting?
  {
    Enabled(b, Wake(t))
    || exists u :: IsClosing(b, u, b.senders[t].ch) && Enabled(b, Close(u)) && Enabled(Apply(b, Close(u)), Wake(t))
  }

  lemma Registered(b: Broker, a: Action)
    requires Enabled(b, a) && a.Register?
    ensures var id := b.senders[a.t].id;
            var b' := Apply(b, a);
            a.t in b'.senders && b'.senders[a.t] == Waiting(id, a.ch) && id in b'.waiters && a.ch in b'.closes
  {
  }

  /** For as long as a registered sender waits, its wake-up is assured if and only if the handler of an
    * accepted ack has looked for the waiter after the registration. */
  lemma WokenExactlyByALaterLook(states: seq<Broker>, actions: seq<Action>, k: nat, i: nat, t: int)
    requires Run(states, actions) && k < i < |states| && actions[k].Register? && actions[k].t == t
    requires Waits(states[i], t, states[k].senders[t].id, actions[k].ch)
    ensures WakeAssured(states[i], t) <==> LookedFor(states, actions, k + 1, i, states[k].senders[t].id)
  {
    var id, ch := states[k].senders[t].id, actions[k].ch;
    Registered(states[k], actions[k]);
    WaitedAllAlong(states, actions, k + 1, i, t, id, ch);
    EntryUntilLook(states, actions, k + 1, i, t, id, ch);
    RunsKeepInv(states, actions, i);
    AssuredIfFound(states[i], t);
  }

  lemma AssuredIfFound(b: Broker, t: int)
    requires Inv(b) && t in b.senders && b.senders[t].Waiting?
    ensures WakeAssured(b, t) <==> b.senders[t].id !in b.waiters
  {
  }

  /** A state with a message stored and this sender, waiter and channel on top of it. */
  function Sent(b: Broker, t: int, id: MsgId, to: string, sender: Sender): Broker
  {
    b.(recipient := b.recipient[id := to], senders := b.senders[t := sender])
  }

  function Opened(b: Broker, t: int, id: MsgId, to: string, ch: Chan): Broker
  {
    Sent(b, t, id, to, Waiting(id, ch)).(waiters := b.waiters[id := ch], closes := b.closes[ch := 0])
  }

  /** Send and registration, one after the other: the waiter is there and the channel open. */
  lemma SendOpens(b: Broker, t: int, id: MsgId, to: string, ch: Chan)
    requires t !in b.senders && id !in b.recipient && ch !in b.closes
    ensures Enabled(b, Send(t, id, to)) && Apply(b, Send(t, id, to)) == Sent(b, t, id, to, Registering(id))
    ensures var s := Sent(b, t, id, to, Registering(id));
            Enabled(s, Register(t, ch)) && Apply(s, Register(t, ch)) == Opened(b, t, id, to, ch)
  {
    assert b.senders[t := Registering(id)][t := Waiting(id, ch)] == b.senders[t := Waiting(id, ch)];
  }

  function Answered(b: Broker, t: int, id: MsgId, to: string, ch: Chan, u: int): Broker
  {
    Opened(b, t, id, to, ch).(ackers := b.ackers[u := Accepted(id)], acks := b.acks + {(id, to)})
  }

  function Looked(b: Broker, t: int, id: MsgId, to: string, ch: Chan, u: int): Broker
  {
    Answered(b, t, id, to, ch, u).(ackers := b.ackers[u := Closing(ch)], waiters := b.waiters)
  }

  function Shut(b: Broker, t: int, id: MsgId, to: string, ch: Chan, u: int): Broker
  {
    Looked(b, t, id, to, ch, u).(ackers := b.ackers, closes := b.closes[ch := 1])
  }

  /** An ack from the recipient, left to itself: the entry is taken, the channel closed once, the sender told
    * that the ack came; and nothing of the two calls is left but the history. */
  lemma AckTakesEntry(b: Broker, t: int, id: MsgId, to: string, ch: Chan, u: int)
    requires id !in b.waiters && u !in b.ackers
    ensures var b0, b1 := Opened(b, t, id, to, ch), Answered(b, t, id, to, ch, u);
            && Enabled(b0, Ack(u, id, to)) && Apply(b0, Ack(u, id, to)) == b1
            && Enabled(b1, Lookup(u)) && Apply(b1, Lookup(u)) == Looked(b, t, id, to, ch, u)
  {
    assert b.waiters[id := ch] - {id} == b.waiters;
    assert b.ackers[u := Accepted(id)][u := Closing(ch)] == b.ackers[u := Closing(ch)];
  }

  lemma CloseWakes(b: Broker, t: int, id: MsgId, to: string, ch: Chan, u: int)
    requires t !in b.senders && u !in b.ackers
    ensures var b2, b3 := Looked(b, t, id, to, ch, u), Shut(b, t, id, to, ch, u);
            && Enabled(b2, Close(u)) && Apply(b2, Close(u)) == b3
            && Enabled(b3, Wake(t)) && Apply(b3, Wake(t)) == b3.(senders := b.senders, okReplies := b.okReplies + {id})
  {
    assert b.ackers[u := Closing(ch)] - {u} == b.ackers;
    assert b.senders[t := Waiting(id, ch)] - {t} == b.senders;
    assert b.closes[ch := 0][ch := 1] == b.closes[ch := 1];
  }

  /** A timeout, or a stop that has been called, ends the wait and takes the entry along. */
  lemma GivingUpLeavesNothing(b: Broker, t: int, id: MsgId, to: string, ch: Chan)
    requires t !in b.senders && id !in b.waiters
    ensures var b0 := Opened(b, t, id, to, ch);
            var b1 := Sent(b, t, id, to, Leaving(id, ch)).(waiters := b0.waiters, closes := b0.closes);
            && Enabled(b0, TimeOut(t)) && Apply(b0, TimeOut(t)) == b1
            && (Enabled(b0, SeeStop(t)) <==> b.stopped) && (b.stopped ==> Apply(b0, SeeStop(t)) == b1)
            && Enabled(b1, Leave(t)) && Apply(b1, Leave(t)) == b1.(senders := b.senders, waiters := b.waiters)
  {
    assert b.waiters[id := ch] - {id} == b.waiters;
    assert b.senders[t := Waiting(id, ch)][t := Leaving(id, ch)] == b.senders[t := Leaving(id, ch)];
    assert b.senders[t := Leaving(id, ch)] - {t} == b.senders;
  }

  /** An ack of a message that no one waits for is accepted and changes nothing else. */
  lemma UnawaitedAck(b: Broker, id: MsgId, to: string, u: int)
    requires id in b.recipient && b.recipient[id] == to && id !in b.waiters && u !in b.ackers
    ensures var b1 := b.(ackers := b.ackers[u := Accepted(id)], acks := b.acks + {(id, to)});
            && Enabled(b, Ack(u, id, to)) && Apply(b, Ack(u, id, to)) == b1
            && Enabled(b1, Lookup(u)) && Apply(b1, Lookup(u)) == b1.(ackers := b.ackers)
  {
    assert b.waiters - {id} == b.waiters;
    assert b.ackers[u := Accepted(id)] - {u} == b.ackers;
  }

  lemma StopStops(b: Broker)
    ensures Enabled(b, Stop) <==> !b.stopped
    ensures !b.stopped ==> Apply(b, Stop) == b.(stopped := true)
  {
  }

  /** The registration comes after the message is stored, so an ack can be accepted and looked up in
    * between; that sender is not woken by it. */
  lemma EarlyAckIsLost()
    ensures exists states: seq<Broker>, actions: seq<Action> ::
              Run(states, actions) && |actions| == 4 && states[4].acks == {(1, "bob")} && states[4].ackers == map[]
              && states[4].senders == map[0 := Waiting(1, 0)] && !WakeAssured(states[4], 0)
  {
    var actions := [Send(0, 1, "bob"), Ack(1, 1, "bob"), Lookup(1), Register(0, 0)];
    var s1 := Apply(INITIAL, actions[0]);
    var s2 := Apply(s1, actions[1]);
    var s3 := Apply(s2, actions[2]);
    var s4 := Apply(s3, actions[3]);
    var states := [INITIAL, s1, s2, s3, s4];
    assert s3.ackers == map[];
    assert s4.senders == map[0 := Waiting(1, 0)];
    assert s4.acks == {(1, "bob")};
    assert Run(states, actions);
  }
}
