/** When the main loop starts a failover on the strength of a heartbeat: its test against the threads of `Grace`, which
    say when it should not, and against the history of the peer that `Heartbeat` has received. */
module Fallback {
  import opened Basics
  import opened Models
  import opened Calls
  import opened Monitors
  import opened Recovery
  import opened Failover
  import opened Daemon
  import Grace
  import Heartbeat

  /** The main loop is about to make a pass on a node as its threads have left it. */
  predicate Agree(t: Grace.Threads, role: NodeRole, active: bool, lastDemotionTs: real, now: real) {
    t.main == Grace.AtGuard && t.role == role && t.active == active && t.lastDemotionTs == lastDemotionTs && t.now
         == now
  }

  /** A pass falls back exactly when the guard of the grace theorems is open, there is no maintenance, the peer is
      alive and shown as STANDBY and DETACHED, and the budget allows an attempt. */
  lemma FallbackExactly(s: Site, mon: PgMon, active: bool, lastDemotionTs: real, budget: Budget, threshold: int,
                        around: Surroundings, calls: SelfStep -> Outcome, now: real, mono: real, t: Grace.Threads)
    requires Agree(t, s.local.role, active, lastDemotionTs, now)
    ensures PassRun(s, mon, active, lastDemotionTs, budget, threshold, around, calls, now, mono).fallback <==>
            && Grace.GuardOpen(t) && !around.maintenance
            && around.peerAlive && around.peer.role == NodeRole.Standby && around.peer.diskState == Detached
            && MayAttempt(budget, true, mono)
  {
    hide SelfRun;
    var l := Refresh(mon, s.local, active || around.maintenance, threshold).local;
    SelfRunRecords(s.(local := l), 0, calls);
  }

  /** Over every history of the daemon's threads in which they set the flag in single file: no pass falls back while a
      switchover runs on the node or within thirty seconds of its last demotion. */
  lemma FallbackKeepsGrace(start: Grace.Threads, es: seq<Grace.Event>, s: Site, mon: PgMon, active: bool,
                           lastDemotionTs: real, budget: Budget, threshold: int, around: Surroundings,
                           calls: SelfStep -> Outcome, now: real, mono: real)
    requires Grace.Fresh(start) && Grace.Trace(start, es) && Grace.SingleFile(start, es)
    requires Agree(Grace.End(start, es), s.local.role, active, lastDemotionTs, now)
    requires PassRun(s, mon, active, lastDemotionTs, budget, threshold, around, calls, now, mono).fallback
    ensures var t := Grace.End(start, es);
            t.crew.Inside() == 0 && (t.demotedAt.Some? ==> now >= t.demotedAt.value + 30.0)
  {
    FallbackExactly(s, mon, active, lastDemotionTs, budget, threshold, around, calls, now, mono, Grace.End(start, es));
    Grace.GraceHolds(start, es);
  }

  /** A pass self-demotes only where the threads let a self-demotion begin. */
  lemma DemotionBegins(s: Site, mon: PgMon, active: bool, lastDemotionTs: real, budget: Budget, threshold: int,
                       around: Surroundings, calls: SelfStep -> Outcome, now: real, mono: real, t: Grace.Threads)
    requires Agree(t, s.local.role, active, lastDemotionTs, now)
    ensures PassRun(s, mon, active, lastDemotionTs, budget, threshold, around, calls, now, mono).demoted ==>
              Grace.Possible(t, Grace.SelfBegin) && !around.maintenance
  {
  }

  lemma {:induction false} AliveMeansHeard(start: NodeState, sender: string, receiver: string, deadInterval: real,
                                           hs: seq<Heartbeat.Happening>)
    ensures var l := Heartbeat.LinkAfter(start, sender, receiver, deadInterval, hs); l.view.alive ==> l.heard
  {
    hide FromDict;
    if hs != [] {
      AliveMeansHeard(start, sender, receiver, deadInterval, hs[..|hs| - 1]);
    }
  }

  /** With datagrams lost, late, reordered or repeated: a pass that falls back on what it has received of the peer
      does so because the peer was STANDBY and DETACHED when it sent the datagram that arrived last. */
  lemma FallbackMeansGaveUp(start: NodeState, sender: string, receiver: string, deadInterval: real,
                            hs: seq<Heartbeat.Happening>, s: Site, mon: PgMon, active: bool, lastDemotionTs: real,
                            budget: Budget, threshold: int, around: Surroundings, calls: SelfStep -> Outcome,
                            now: real, mono: real)
    requires sender != receiver
    requires var l := Heartbeat.LinkAfter(start, sender, receiver, deadInterval, hs);
             around.peer == l.view.peer && around.peerAlive == l.view.alive
    requires PassRun(s, mon, active, lastDemotionTs, budget, threshold, around, calls, now, mono).fallback
    ensures var l := Heartbeat.LinkAfter(start, sender, receiver, deadInterval, hs);
            && Heartbeat.Arrivals(hs) != [] && Heartbeat.Shown(hs) < |l.states|
            && l.states[Heartbeat.Shown(hs)].role == NodeRole.Standby
            && l.states[Heartbeat.Shown(hs)].diskState == Detached
  {
    AliveMeansHeard(start, sender, receiver, deadInterval, hs);
    Heartbeat.PeerViewIsHistory(start, sender, receiver, deadInterval, hs);
    var t := Grace.Threads(s.local.role, active, lastDemotionTs, now, Grace.NOBODY, Grace.AtGuard, None);
    FallbackExactly(s, mon, active, lastDemotionTs, budget, threshold, around, calls, now, mono, t);
  }
}
