/** heartbeat.py: what the peer is believed to be, and the events that report it silent or back. Each handler, that is
    the receipt of one datagram or one tick of the watchdog, is taken as one step. */
module Heartbeat {
  import opened Basics
  import opened Models

  datatype PeerEvent = PeerRecovered | PeerDead

  datatype PeerView = PeerView(peer: NodeState, alive: bool, events: seq<PeerEvent>)

  function InitialView(peerName: string): PeerView {
    PeerView(InitialState(peerName), false, [])
  }

  function Received(v: PeerView, self: string, d: Dict, now: real): PeerView {
    match FromDict(d)
    case Err(_) => v
    case Ok(m) =>
      if m.node == self then v
      else PeerView(v.peer.(role := m.role, health := m.nodeHealth, pgState := m.pgState, diskState := m.diskState,
                            lastHeartbeatTs := now, heartbeatSeq := m.seq_),
                    true,
                    if v.alive then v.events else v.events + [PeerRecovered])
  }

  function Ticked(v: PeerView, deadInterval: real, now: real, pgReachable: bool): PeerView {
    if v.peer.lastHeartbeatTs == 0.0 then v
    else if now - v.peer.lastHeartbeatTs > deadInterval && v.alive && !pgReachable
    then v.(alive := false, events := v.events + [PeerDead])
    else v
  }

  class HeartbeatManager {
    const nodeName: string
    const deadInterval: real
    var sent: int
    var peerState: NodeState
    var peerAlive: bool
    var events: seq<PeerEvent>

    ghost function View(): PeerView
      reads this
    {
      PeerView(peerState, peerAlive, events)
    }

    constructor (nodeName: string, peerName: string, deadInterval: real)
      ensures this.nodeName == nodeName && this.deadInterval == deadInterval && sent == 0
      ensures View() == InitialView(peerName)
    {
      this.nodeName, this.deadInterval, sent := nodeName, deadInterval, 0;
      peerState, peerAlive, events := InitialState(peerName), false, [];
    }

    /** One round of the sender, given the snapshot just taken. */
    method Send(local: NodeState, now: real) returns (d: Dict)
      modifies this
      ensures d == ToDict(MessageOf(nodeName, local, old(sent) + 1, now))
      ensures sent == old(sent) + 1 && View() == old(View())
    {
      sent := sent + 1;
      d := ToDict(MessageOf(nodeName, local, sent, now));
    }

    method Receive(d: Dict, now: real)
      modifies this
      ensures View() == Received(old(View()), nodeName, d, now) && sent == old(sent)
    {
      var r := FromDict(d);
      if r.Err? || r.value.node == nodeName {
        return;
      }
      var wasAlive := peerAlive;
      peerState := peerState.(role := r.value.role, health := r.value.nodeHealth, pgState := r.value.pgState,
                              diskState := r.value.diskState, lastHeartbeatTs := now, heartbeatSeq := r.value.seq_);
      peerAlive := true;
      if !wasAlive {
        events := events + [PeerRecovered];
      }
    }

    method WatchdogTick(now: real, pgReachable: bool)
      modifies this
      ensures View() == Ticked(old(View()), deadInterval, now, pgReachable) && sent == old(sent)
    {
      if peerState.lastHeartbeatTs == 0.0 {
        return;
      }
      var age := now - peerState.lastHeartbeatTs;
      if age > deadInterval && peerAlive {
        if pgReachable {
          return;
        }
        peerAlive := false;
        events := events + [PeerDead];
      }
    }

    method PeerSnapshot() returns (s: NodeState)
      ensures s == View().peer
    {
      s := peerState;
    }
  }

  function MessageOf(node: string, local: NodeState, seq_: int, ts: real): HeartbeatMsg {
    HeartbeatMsg(node, local.role, seq_, local.pgState, local.diskState, local.health, ts)
  }

  /* ---------------- alternation ---------------- */

  datatype Handler = Datagram(d: Dict, at: real) | Tick(at: real, pgReachable: bool)

  function HandleOne(v: PeerView, self: string, deadInterval: real, h: Handler): PeerView {
    match h
    case Datagram(d, at) => Received(v, self, d, at)
    case Tick(at, reachable) => Ticked(v, deadInterval, at, reachable)
  }

  function Handled(v: PeerView, self: string, deadInterval: real, hs: seq<Handler>): PeerView {
    if hs == [] then v else HandleOne(Handled(v, self, deadInterval, hs[..|hs| - 1]), self, deadInterval, hs[|hs| - 1])
  }

  /** Whether any datagram so far was a heartbeat of the other node. */
  predicate Heard(self: string, hs: seq<Handler>) {
    hs != [] && (Heard(self, hs[..|hs| - 1]) || Heartbeats(self, hs[|hs| - 1]))
  }

  predicate Heartbeats(self: string, h: Handler) {
    h.Datagram? && FromDict(h.d).Ok? && FromDict(h.d).value.node != self
  }

  /** A handler reports at most one event, and the one that changes what it knows. */
  lemma HandlerReports(v: PeerView, self: string, deadInterval: real, h: Handler)
    ensures var u := HandleOne(v, self, deadInterval, h);
            && (Heartbeats(self, h) ==> u.alive && u.events == if v.alive then v.events else v.events + [PeerRecovered])
            && (!Heartbeats(self, h) ==>
                  || (u.alive == v.alive && u.events == v.events)
                  || (v.alive && !u.alive && u.events == v.events + [PeerDead]))
  {}

  /** RECOVERED first, then in turns, and alive exactly after a RECOVERED. */
  predicate Alternates(v: PeerView) {
    && (forall i :: 0 <= i < |v.events| ==> v.events[i] == if i % 2 == 0 then PeerRecovered else PeerDead)
    && (v.alive <==> |v.events| % 2 == 1)
  }

  lemma AlternatesNext(v: PeerView, self: string, deadInterval: real, h: Handler)
    requires Alternates(v)
    ensures var u := HandleOne(v, self, deadInterval, h);
            Alternates(u) && (u.events == [] <==> v.events == [] && !Heartbeats(self, h))
  {
    HandlerReports(v, self, deadInterval, h);
  }

  /** Whatever arrives and whenever the watchdog ticks: the events are RECOVERED, DEAD, RECOVERED, ... without
      exception, the peer counts as alive exactly when the last one is RECOVERED, and nothing is reported before its
      first heartbeat. */
  lemma {:induction false} EventsAlternate(self: string, peerName: string, deadInterval: real, hs: seq<Handler>)
    ensures var v := Handled(InitialView(peerName), self, deadInterval, hs);
            Alternates(v) && (v.events == [] <==> !Heard(self, hs))
  {
    if hs != [] {
      EventsAlternate(self, peerName, deadInterval, hs[..|hs| - 1]);
      AlternatesNext(Handled(InitialView(peerName), self, deadInterval, hs[..|hs| - 1]), self, deadInterval,
                     hs[|hs| - 1]);
    }
  }

  /** When the last heartbeat of the other node arrived, by the receiver's clock. */
  function LastHeard(self: string, hs: seq<Handler>): Option<real> {
    if hs == [] then None
    else if Heartbeats(self, hs[|hs| - 1]) then Some(hs[|hs| - 1].at)
    else LastHeard(self, hs[..|hs| - 1])
  }

  lemma {:induction false} HeardWhen(self: string, peerName: string, deadInterval: real, hs: seq<Handler>)
    ensures Heard(self, hs) <==> LastHeard(self, hs).Some?
    ensures Handled(InitialView(peerName), self, deadInterval, hs).peer.lastHeartbeatTs
         == if Heard(self, hs) then LastHeard(self, hs).value else 0.0
  {
    hide FromDict;
    if hs != [] {
      HeardWhen(self, peerName, deadInterval, hs[..|hs| - 1]);
    }
  }

  /** The last report, if there is one. */
  predicate LastWas(events: seq<PeerEvent>, e: PeerEvent) {
    events != [] && events[|events| - 1] == e
  }

  lemma OneReports(v: PeerView, self: string, deadInterval: real, h: Handler)
    ensures var last := v.peer.lastHeartbeatTs;
            HandleOne(v, self, deadInterval, h).events == v.events +
            if Heartbeats(self, h) && !v.alive then [PeerRecovered]
            else if h.Tick? && v.alive && !h.pgReachable && last != 0.0 && h.at - last > deadInterval then [PeerDead]
            else []
  {
    assert v.events + [] == v.events;
  }

  /** What handler h reports after the handlers hs: RECOVERED, if it is a heartbeat of the other node and that was not
      counted as alive; DEAD, if it is a tick while it was, its last heartbeat arrived longer ago than the dead
      interval, and the tick's own probe of the PostgreSQL port fails; and otherwise nothing. A heartbeat that arrived
      at time zero is taken for none. */
  lemma ReportsExactly(self: string, peerName: string, deadInterval: real, hs: seq<Handler>, h: Handler)
    ensures var before := Handled(InitialView(peerName), self, deadInterval, hs).events;
            Handled(InitialView(peerName), self, deadInterval, hs + [h]).events
            == before +
               if Heartbeats(self, h) && !LastWas(before, PeerRecovered) then [PeerRecovered]
               else if && h.Tick? && LastWas(before, PeerRecovered) && !h.pgReachable
                       && LastHeard(self, hs) !in {None, Some(0.0)} && h.at - LastHeard(self, hs).value > deadInterval
               then [PeerDead]
               else []
  {
    hide HandleOne, Heartbeats;
    assert (hs + [h])[..|hs|] == hs;
    OneReports(Handled(InitialView(peerName), self, deadInterval, hs), self, deadInterval, h);
    EventsAlternate(self, peerName, deadInterval, hs);
    HeardWhen(self, peerName, deadInterval, hs);
  }

  /* ---------------- how soon silence is noticed ---------------- */

  function CheckInterval(deadInterval: real): real {
    if 1.0 < deadInterval / 2.0 then 1.0 else deadInterval / 2.0
  }

  /** Once a second, or twice in the dead interval if that is more often. */
  lemma ChecksOften(deadInterval: real)
    ensures var c := CheckInterval(deadInterval);
            c <= 1.0 && c <= deadInterval / 2.0 && (c == 1.0 || c == deadInterval / 2.0)
  {}

  /** The watchdog's wake times after a heartbeat at time `last`, and how long each tick takes: nothing, unless it
      probes. */
  ghost predicate Schedule(last: real, deadInterval: real, wakes: seq<real>, takes: seq<real>) {
    && |wakes| == |takes| > 0
    && last < wakes[0] <= last + CheckInterval(deadInterval)
    && (forall k :: 0 <= k < |takes| ==>
          && 0.0 <= takes[k] <= 2.0
          && (wakes[k] - last <= deadInterval ==> takes[k] == 0.0))
    && (forall k :: 0 <= k < |wakes| - 1 ==> wakes[k + 1] == wakes[k] + takes[k] + CheckInterval(deadInterval))
  }

  /** All these ticks, no heartbeat in between, every probe failing. */
  function Silence(v: PeerView, deadInterval: real, wakes: seq<real>): PeerView {
    if wakes == [] then v
    else Ticked(Silence(v, deadInterval, wakes[..|wakes| - 1]), deadInterval, wakes[|wakes| - 1], false)
  }

  lemma {:induction false} WakesAdvance(last: real, deadInterval: real, wakes: seq<real>, takes: seq<real>, k: nat)
    requires deadInterval > 0.0 && Schedule(last, deadInterval, wakes, takes) && k < |wakes|
    ensures wakes[k] > last + k as real * CheckInterval(deadInterval)
  {
    if k > 0 {
      WakesAdvance(last, deadInterval, wakes, takes, k - 1);
      var c := CheckInterval(deadInterval);
      assert wakes[k - 1 + 1] == wakes[k - 1] + takes[k - 1] + c;
      assert k as real * c == (k - 1) as real * c + c;
    }
  }

  lemma {:induction false} QuietUntil(v: PeerView, deadInterval: real, wakes: seq<real>)
    requires forall k :: 0 <= k < |wakes| ==> wakes[k] - v.peer.lastHeartbeatTs <= deadInterval
    ensures Silence(v, deadInterval, wakes) == v
  {
    if wakes != [] {
      QuietUntil(v, deadInterval, wakes[..|wakes| - 1]);
    }
  }

  lemma {:induction false} DeadOnce(v: PeerView, deadInterval: real, wakes: seq<real>)
    requires !v.alive
    ensures Silence(v, deadInterval, wakes) == v
  {
    if wakes != [] {
      DeadOnce(v, deadInterval, wakes[..|wakes| - 1]);
    }
  }

  lemma {:induction false} SilenceSplit(v: PeerView, deadInterval: real, xs: seq<real>, ys: seq<real>)
    ensures Silence(v, deadInterval, xs + ys) == Silence(Silence(v, deadInterval, xs), deadInterval, ys)
    decreases |ys|
  {
    if ys == [] {
      assert xs + ys == xs;
    } else {
      SilenceSplit(v, deadInterval, xs, ys[..|ys| - 1]);
      assert (xs + ys)[..|xs + ys| - 1] == xs + ys[..|ys| - 1];
    }
  }

  lemma {:induction false} FirstLate(last: real, deadInterval: real, wakes: seq<real>, n: nat) returns (k: nat)
    requires n < |wakes| && wakes[n] - last > deadInterval
    ensures k <= n && wakes[k] - last > deadInterval && forall i :: 0 <= i < k ==> wakes[i] - last <= deadInterval
  {
    k := 0;
    while wakes[k] - last <= deadInterval
      invariant k <= n && forall i :: 0 <= i < k ==> wakes[i] - last <= deadInterval
      decreases n - k
    {
      k := k + 1;
    }
  }

  /** After a last heartbeat, once the watchdog has ticked often enough, exactly one DEAD has been reported, by a tick k
      that ended later than the dead interval after the heartbeat and at most one check interval plus the two seconds of
      a failing probe after that. */
  lemma SilenceNoticed(v: PeerView, deadInterval: real, wakes: seq<real>, takes: seq<real>) returns (k: nat)
    requires v.alive && v.peer.lastHeartbeatTs > 0.0 && deadInterval > 0.0
    requires Schedule(v.peer.lastHeartbeatTs, deadInterval, wakes, takes)
    requires (|wakes| - 1) as real * CheckInterval(deadInterval) >= deadInterval
    ensures k < |wakes|
    ensures Silence(v, deadInterval, wakes[..k]) == v
    ensures Silence(v, deadInterval, wakes) == v.(alive := false, events := v.events + [PeerDead])
         == Silence(v, deadInterval, wakes[..k + 1])
    ensures var last := v.peer.lastHeartbeatTs;
            last + deadInterval < wakes[k] + takes[k] <= last + deadInterval + CheckInterval(deadInterval) + 2.0
  {
    var last := v.peer.lastHeartbeatTs;
    WakesAdvance(last, deadInterval, wakes, takes, |wakes| - 1);
    k := FirstLate(last, deadInterval, wakes, |wakes| - 1);
    if k > 0 {
      assert wakes[k - 1 + 1] == wakes[k - 1] + takes[k - 1] + CheckInterval(deadInterval);
    }
    QuietUntil(v, deadInterval, wakes[..k]);
    assert wakes[..k + 1][..k] == wakes[..k];
    var dead := Silence(v, deadInterval, wakes[..k + 1]);
    assert wakes == wakes[..k + 1] + wakes[k + 1..];
    SilenceSplit(v, deadInterval, wakes[..k + 1], wakes[k + 1..]);
    DeadOnce(dead, deadInterval, wakes[k + 1..]);
  }

  /* ---------------- the view is real history ---------------- */

  datatype Happening =
    | SetRole(role: NodeRole)
    | SetHealth(health: NodeHealth)
    | SetPg(pgState: PgState)
    | SetDisk(diskState: DiskState)
    | Send(at: real)
    | Arrive(k: nat, at: real)        // the k-th datagram sent, for the first time or again
    | WatchdogTick(at: real, pgReachable: bool)

  /** The sender's successive states, the datagrams it has sent, and what the receiver makes of those that arrive. */
  datatype Link = Link(states: seq<NodeState>, wire: seq<Dict>, view: PeerView, heard: bool)

  predicate SameRecord(s: NodeState, t: NodeState) {
    s.role == t.role && s.health == t.health && s.pgState == t.pgState && s.diskState == t.diskState
  }

  function LinkNext(l: Link, sender: string, receiver: string, deadInterval: real, h: Happening): Link
    requires |l.states| > 0
  {
    var now := l.states[|l.states| - 1];
    match h
    case SetRole(r) => l.(states := l.states + [now.(role := r)])
    case SetHealth(x) => l.(states := l.states + [now.(health := x)])
    case SetPg(p) => l.(states := l.states + [now.(pgState := p)])
    case SetDisk(k) => l.(states := l.states + [now.(diskState := k)])
    case Send(at) => l.(wire := l.wire + [Encoded(sender, now, |l.wire| + 1, at)])
    case Arrive(k, at) =>
      if k < |l.wire| then l.(view := Received(l.view, receiver, l.wire[k], at), heard := true) else l
    case WatchdogTick(at, reachable) => l.(view := Ticked(l.view, deadInterval, at, reachable))
  }

  function LinkAfter(start: NodeState, sender: string, receiver: string, deadInterval: real, hs: seq<Happening>)
    : (l: Link)
    ensures |l.states| > 0
  {
    if hs == [] then Link([start], [], InitialView(sender), false)
    else LinkNext(LinkAfter(start, sender, receiver, deadInterval, hs[..|hs| - 1]), sender, receiver, deadInterval,
                  hs[|hs| - 1])
  }

  function Encoded(sender: string, s: NodeState, n: int, at: real): Dict {
    ToDict(MessageOf(sender, s, n, at))
  }

  /** Whether the sender's record is written. */
  predicate Writes(h: Happening) {
    h.SetRole? || h.SetHealth? || h.SetPg? || h.SetDisk?
  }

  /** The number of the sender's current state. */
  function StateNo(hs: seq<Happening>): nat {
    if hs == [] then 0 else StateNo(hs[..|hs| - 1]) + if Writes(hs[|hs| - 1]) then 1 else 0
  }

  /** For each datagram sent, the number of the state it was sent in. */
  function SentIn(hs: seq<Happening>): seq<nat> {
    if hs == [] then []
    else if hs[|hs| - 1].Send? then SentIn(hs[..|hs| - 1]) + [StateNo(hs[..|hs| - 1])]
    else SentIn(hs[..|hs| - 1])
  }

  /** Which datagrams have arrived, in the order of their arrival. */
  function Arrivals(hs: seq<Happening>): (ks: seq<nat>)
    ensures forall i :: 0 <= i < |ks| ==> ks[i] < |SentIn(hs)|
  {
    if hs == [] then []
    else
      var before := Arrivals(hs[..|hs| - 1]);
      match hs[|hs| - 1]
      case Arrive(k, _) => if k < |SentIn(hs[..|hs| - 1])| then before + [k] else before
      case _ => before
  }

  /** The state that the datagram to arrive last was sent in. */
  function Shown(hs: seq<Happening>): nat
    requires Arrivals(hs) != []
  {
    SentIn(hs)[Arrivals(hs)[|Arrivals(hs)| - 1]]
  }

  /** The datagram decodes to the record s and the number n. */
  predicate Carries(d: Dict, sender: string, s: NodeState, n: int) {
    match FromDict(d)
    case Err(_) => false
    case Ok(m) =>
      && m.node == sender && m.seq_ == n
      && m.role == s.role && m.nodeHealth == s.health && m.pgState == s.pgState && m.diskState == s.diskState
  }

  lemma EncodedCarries(sender: string, s: NodeState, n: int, at: real)
    ensures Carries(Encoded(sender, s, n, at), sender, s, n)
  {
    HeartbeatRoundTrip(MessageOf(sender, s, n, at));
  }

  /** What the history says of the two ends and of the wire. */
  ghost predicate Told(l: Link, sender: string, hs: seq<Happening>) {
    && |l.states| == StateNo(hs) + 1 && |l.wire| == |SentIn(hs)|
    && (forall i :: 0 <= i < |l.wire| ==>
          SentIn(hs)[i] < |l.states| && Carries(l.wire[i], sender, l.states[SentIn(hs)[i]], i + 1))
  }

  lemma {:induction false} LinkTold(start: NodeState, sender: string, receiver: string, deadInterval: real,
                                    hs: seq<Happening>)
    ensures Told(LinkAfter(start, sender, receiver, deadInterval, hs), sender, hs)
  {
    hide FromDict, Carries, Encoded, Received, Ticked;
    if hs != [] {
      LinkTold(start, sender, receiver, deadInterval, hs[..|hs| - 1]);
      var l := LinkAfter(start, sender, receiver, deadInterval, hs[..|hs| - 1]);
      if hs[|hs| - 1].Send? {
        EncodedCarries(sender, l.states[|l.states| - 1], |l.wire| + 1, hs[|hs| - 1].at);
      }
    }
  }

  lemma ArrivalShows(v: PeerView, sender: string, receiver: string, d: Dict, s: NodeState, n: int, now: real)
    requires sender != receiver && Carries(d, sender, s, n)
    ensures var p := Received(v, receiver, d, now).peer; SameRecord(p, s) && p.heartbeatSeq == n
  {
  }

  /** One event: a datagram that arrives shows its state, and nothing else changes what is shown. */
  lemma ViewNext(l: Link, sender: string, receiver: string, deadInterval: real, init: seq<Happening>, h: Happening)
    requires sender != receiver && Told(l, sender, init) && |l.states| > 0
    ensures var l' := LinkNext(l, sender, receiver, deadInterval, h);
            && |l'.states| >= |l.states| && l'.states[..|l.states|] == l.states
            && if h.Arrive? && h.k < |l.wire| then
                 && l'.heard && SentIn(init)[h.k] < |l.states| && l'.view.peer.heartbeatSeq == h.k + 1
                 && SameRecord(l'.view.peer, l.states[SentIn(init)[h.k]])
               else
                 && l'.heard == l.heard && SameRecord(l'.view.peer, l.view.peer)
                 && l'.view.peer.heartbeatSeq == l.view.peer.heartbeatSeq
  {
    hide FromDict, Carries, Encoded, Received, SentIn, StateNo;
    if h.Arrive? && h.k < |l.wire| {
      ArrivalShows(l.view, sender, receiver, l.wire[h.k], l.states[SentIn(init)[h.k]], h.k + 1, h.at);
    }
  }

  /** With datagrams lost, late, out of order or duplicated, and whatever the sender's setters do in between: once a
      datagram has arrived, role, health, PostgreSQL and disk state of the peer view are those of one single state of
      the peer, the one in which the datagram to arrive last was sent, and its number is the one stored. */
  lemma {:induction false} PeerViewIsHistory(start: NodeState, sender: string, receiver: string, deadInterval: real,
                                             hs: seq<Happening>)
    requires sender != receiver
    ensures var l := LinkAfter(start, sender, receiver, deadInterval, hs);
            && (l.heard <==> Arrivals(hs) != [])
            && (l.heard ==> Shown(hs) < |l.states| && SameRecord(l.view.peer, l.states[Shown(hs)])
                            && l.view.peer.heartbeatSeq == Arrivals(hs)[|Arrivals(hs)| - 1] + 1)
  {
    hide FromDict, Carries, Encoded, Received, LinkNext;
    if hs != [] {
      var init := hs[..|hs| - 1];
      var l := LinkAfter(start, sender, receiver, deadInterval, init);
      LinkTold(start, sender, receiver, deadInterval, init);
      PeerViewIsHistory(start, sender, receiver, deadInterval, init);
      ViewNext(l, sender, receiver, deadInterval, init, hs[|hs| - 1]);
    }
  }

  /* ---------------- when the view goes back ---------------- */

  lemma {:induction false} SentInOrder(hs: seq<Happening>, i: nat, j: nat)
    requires i <= j < |SentIn(hs)|
    ensures SentIn(hs)[i] <= SentIn(hs)[j] <= StateNo(hs)
  {
    var init := hs[..|hs| - 1];
    if j < |SentIn(init)| {
      SentInOrder(init, i, j);
    } else if i < j {
      SentInOrder(init, i, j - 1);
    }
  }

  /** An arrival puts an older state back if and only if its number is lower than the one stored, which the receiver
      does not look at, and the sender wrote its record between the two sends. */
  lemma ArrivalGoesBackExactly(start: NodeState, sender: string, receiver: string, deadInterval: real,
                               hs: seq<Happening>, k: nat, at: real)
    requires sender != receiver && Arrivals(hs) != [] && k < |SentIn(hs)|
    ensures var stored := LinkAfter(start, sender, receiver, deadInterval, hs).view.peer.heartbeatSeq;
            && Arrivals(hs + [Arrive(k, at)]) == Arrivals(hs) + [k]
            && 1 <= stored <= |SentIn(hs)|
            && (Shown(hs + [Arrive(k, at)]) < Shown(hs) <==> k + 1 < stored && SentIn(hs)[k] < SentIn(hs)[stored - 1])
  {
    PeerViewIsHistory(start, sender, receiver, deadInterval, hs);
    assert (hs + [Arrive(k, at)])[..|hs|] == hs;
    var last := Arrivals(hs)[|Arrivals(hs)| - 1];
    if last <= k {
      SentInOrder(hs, last, k);
    }
  }

  lemma {:induction false} Grows(hs: seq<Happening>, i: nat)
    requires i <= |hs|
    ensures Arrivals(hs[..i]) <= Arrivals(hs) && SentIn(hs[..i]) <= SentIn(hs)
    decreases |hs|
  {
    if i < |hs| {
      Grows(hs[..|hs| - 1], i);
      assert hs[..|hs| - 1][..i] == hs[..i];
    } else {
      assert hs[..i] == hs;
    }
  }

  lemma {:induction false} WhenArrived(hs: seq<Happening>, a: nat) returns (i: nat)
    requires a < |Arrivals(hs)|
    ensures i <= |hs| && |Arrivals(hs[..i])| == a + 1
    decreases |hs|
  {
    if a < |Arrivals(hs[..|hs| - 1])| {
      i := WhenArrived(hs[..|hs| - 1], a);
      assert hs[..|hs| - 1][..i] == hs[..i];
    } else {
      i := |hs|;
      assert hs[..i] == hs;
    }
  }

  ghost predicate NeverGoesBack(hs: seq<Happening>) {
    forall i, j :: 0 <= i <= j <= |hs| && Arrivals(hs[..i]) != [] ==>
                     Arrivals(hs[..j]) != [] && Shown(hs[..i]) <= Shown(hs[..j])
  }

  predicate NoneOlder(hs: seq<Happening>) {
    forall a, b :: 0 <= a < b < |Arrivals(hs)| ==> SentIn(hs)[Arrivals(hs)[a]] <= SentIn(hs)[Arrivals(hs)[b]]
  }

  lemma Fewer(hs: seq<Happening>, i: nat, j: nat)
    requires i <= j <= |hs|
    ensures Arrivals(hs[..i]) <= Arrivals(hs[..j])
  {
    Grows(hs[..j], i);
    assert hs[..j][..i] == hs[..i];
  }

  lemma ShownBetween(hs: seq<Happening>, i: nat, j: nat)
    requires i <= j <= |hs| && Arrivals(hs[..i]) != []
    ensures var a, b := |Arrivals(hs[..i])| - 1, |Arrivals(hs[..j])| - 1;
            && 0 <= a <= b < |Arrivals(hs)|
            && Shown(hs[..i]) == SentIn(hs)[Arrivals(hs)[a]] && Shown(hs[..j]) == SentIn(hs)[Arrivals(hs)[b]]
  {
    hide Arrivals, SentIn;
    Grows(hs, i);
    Grows(hs, j);
    Fewer(hs, i, j);
  }

  /** Over every run: the state shown never gives way to an older one if and only if no datagram arrives that was sent
      in an older state than one that arrived before it. */
  lemma ViewNeverGoesBackExactly(hs: seq<Happening>)
    ensures NeverGoesBack(hs) <==> NoneOlder(hs)
  {
    hide Arrivals, SentIn, Shown;
    if NoneOlder(hs) {
      forall i, j | 0 <= i <= j <= |hs| && Arrivals(hs[..i]) != []
        ensures Arrivals(hs[..j]) != [] && Shown(hs[..i]) <= Shown(hs[..j])
      {
        ShownBetween(hs, i, j);
      }
    }
    if NeverGoesBack(hs) {
      forall a, b | 0 <= a < b < |Arrivals(hs)|
        ensures SentIn(hs)[Arrivals(hs)[a]] <= SentIn(hs)[Arrivals(hs)[b]]
      {
        var i := WhenArrived(hs, a);
        var j := WhenArrived(hs, b);
        if j < i {
          Fewer(hs, j, i);
        }
        ShownBetween(hs, i, j);
      }
    }
  }

  /** Two datagrams sent, the role changing in between; neither has arrived. */
  lemma TwoSent(start: NodeState, sender: string, receiver: string, deadInterval: real)
    ensures var newer := start.(role := NodeRole.Standby);
            LinkAfter(start, sender, receiver, deadInterval, [Send(1.0), SetRole(NodeRole.Standby), Send(2.0)])
            == Link([start, newer], [Encoded(sender, start, 1, 1.0), Encoded(sender, newer, 2, 2.0)],
                    InitialView(sender), false)
  {
    var newer := start.(role := NodeRole.Standby);
    var h1, h2, h3 := [Send(1.0)], [Send(1.0), SetRole(NodeRole.Standby)],
        [Send(1.0), SetRole(NodeRole.Standby), Send(2.0)];
    assert h1[..0] == [] && h2[..1] == h1 && h3[..2] == h2;
    assert LinkAfter(start, sender, receiver, deadInterval, h1)
             == Link([start], [Encoded(sender, start, 1, 1.0)], InitialView(sender), false);
  }

  /** The view need not advance, though: the sequence number is stored and never compared, so a late datagram puts an
      older record back. */
  lemma ViewMayGoBack(start: NodeState, sender: string, receiver: string, deadInterval: real)
    requires sender != receiver && start.role == NodeRole.Primary
    ensures var hs := [Send(1.0), SetRole(NodeRole.Standby), Send(2.0)] + [Arrive(1, 3.0)];
            && LinkAfter(start, sender, receiver, deadInterval, hs).view.peer.role == NodeRole.Standby
            && LinkAfter(start, sender, receiver, deadInterval, hs + [Arrive(0, 4.0)]).view.peer.role
                 == NodeRole.Primary
  {
    var h3 := [Send(1.0), SetRole(NodeRole.Standby), Send(2.0)];
    var l3 := LinkAfter(start, sender, receiver, deadInterval, h3);
    TwoSent(start, sender, receiver, deadInterval);
    ArriveNext(start, sender, receiver, deadInterval, h3, 1, 3.0);
    EncodedCarries(sender, start.(role := NodeRole.Standby), 2, 2.0);
    ArrivalShows(l3.view, sender, receiver, l3.wire[1], start.(role := NodeRole.Standby), 2, 3.0);
    var h4 := h3 + [Arrive(1, 3.0)];
    ArriveNext(start, sender, receiver, deadInterval, h4, 0, 4.0);
    EncodedCarries(sender, start, 1, 1.0);
    var l4 := LinkAfter(start, sender, receiver, deadInterval, h4);
    ArrivalShows(l4.view, sender, receiver, l3.wire[0], start, 1, 4.0);
  }

  lemma ArriveNext(start: NodeState, sender: string, receiver: string, deadInterval: real, hs: seq<Happening>, k: nat,
                   at: real)
    requires k < |LinkAfter(start, sender, receiver, deadInterval, hs).wire|
    ensures var l := LinkAfter(start, sender, receiver, deadInterval, hs);
            LinkAfter(start, sender, receiver, deadInterval, hs + [Arrive(k, at)])
            == l.(view := Received(l.view, receiver, l.wire[k], at), heard := true)
  {
    hide FromDict, Received, Encoded, Ticked;
    assert (hs + [Arrive(k, at)])[..|hs|] == hs;
  }
}
