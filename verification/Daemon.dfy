/** daemon.py: the wrappers around the engines, the self-demotion, and one pass of the main loop. */
module Daemon {
  import opened Basics
  import opened Models
  import opened Calls
  import opened Protocol
  import opened LocalNodes
  import opened Resources
  import opened Monitors
  import opened Switchover
  import opened SwitchoverFacts
  import opened Failover
  import opened Recovery
  import Grace

  /* ---------------- specification ---------------- */

  /** The steps of a self-demotion from pc on; nothing a call raises stops it. */
  function SelfRun(s: Site, pc: nat, calls: SelfStep -> Outcome): Site
    requires pc <= SELF_STEPS
    decreases SELF_STEPS - pc
  {
    if pc == SELF_STEPS then s
    else SelfRun(SelfCall(s, SelfStepAt(pc), calls(SelfStepAt(pc))).site, pc + 1, calls)
  }

  /** What the heartbeat fallback looks at, on this node and of the peer. */
  datatype Surroundings = Surroundings(peerAlive: bool, peer: NodeState, maintenance: bool, osDegraded: bool)

  predicate FallbackWanted(local: NodeState, active: bool, lastDemotionTs: real, now: real, around: Surroundings) {
    && local.role == NodeRole.Standby
    && around.peerAlive
    && now - lastDemotionTs >= Grace.GRACE
    && !active
    && !around.maintenance
    && around.peer.role == NodeRole.Standby
    && around.peer.diskState == Detached
  }

  datatype Passed = Passed(site: Site, mon: PgMon, demoted: bool, fallback: bool, lastDemotionTs: real)

  function PassRun(s: Site, mon: PgMon, active: bool, lastDemotionTs: real, budget: Budget, threshold: int,
                   around: Surroundings, calls: SelfStep -> Outcome, now: real, mono: real): Passed
  {
    var r := Refresh(mon, s.local, active || around.maintenance, threshold);
    var s1 := s.(local := r.local);
    var s2 := if r.demote then SelfRun(s1, 0, calls) else s1;
    var m2 := if r.demote then MonNext(r.mon, SetActive(false)) else r.mon;
    var ts := if r.demote then now else lastDemotionTs;
    var s3 := if around.osDegraded then SetHealth(s2, Degraded) else s2;
    Passed(s3, m2, r.demote,
           FallbackWanted(s3.local, active, ts, now, around)
           && MayAttempt(budget, s3.local.role == NodeRole.Standby, mono),
           ts)
  }

  /* ---------------- the daemon ---------------- */

  datatype CommandReply = Blocked | NotPrimary | InProgress | Initiated

  class PgHaDaemon {
    const threshold: int
    const local: LocalNode
    const managers: Managers
    const pgMon: PostgresMonitor
    const switchover: SwitchoverEngine
    const failover: FailoverEngine
    var switchoverActive: bool
    var lastDemotionTs: real

    constructor (threshold: int, local: LocalNode, managers: Managers, pgMon: PostgresMonitor,
                 switchover: SwitchoverEngine, failover: FailoverEngine)
      requires switchover.local == local && switchover.managers == managers
      requires failover.local == local && failover.managers == managers
      ensures Wired() && !switchoverActive && lastDemotionTs == 0.0
    {
      this.threshold, this.local, this.managers, this.pgMon := threshold, local, managers, pgMon;
      this.switchover, this.failover := switchover, failover;
      switchoverActive, lastDemotionTs := false, 0.0;
    }

    ghost predicate Wired() {
      && switchover.local == local && switchover.managers == managers
      && failover.local == local && failover.managers == managers
    }

    ghost function Now(): Site
      reads this, local, managers
    {
      managers.View(local)
    }

    /** The operator's command: refused in maintenance, on a node that is not PRIMARY, and while a switchover runs, in
        this order of precedence. */
    method CommandSwitchover(maintenance: bool) returns (r: CommandReply)
      ensures r == Blocked <==> maintenance
      ensures r == NotPrimary <==> !maintenance && !local.IsPrimary()
      ensures r == InProgress <==> !maintenance && local.IsPrimary() && switchoverActive
    {
      if maintenance {
        return Blocked;
      }
      if !local.IsPrimary() {
        return NotPrimary;
      }
      if switchoverActive {
        return InProgress;
      }
      r := Initiated;
    }

    /** The operator's command, once accepted; `end` is the clock when the engine returns. The monitor is switched off
        at the start and not again: `meanwhile` is what its own thread and the passes of the main loop, which switch
        it on again on a PRIMARY, do to it during the switchover, and that stands. */
    method RunSwitchover(calls: DemoteStep -> Outcome, meanwhile: seq<MonEvent>, end: real) returns (ok: bool)
      requires Wired() && pgMon.Valid()
      modifies this, local, managers, pgMon
      ensures old(local.IsPrimary()) ==> Executed(Now(), ok) == DemoteRun(old(Now()), 0, calls)
      ensures !old(local.IsPrimary()) ==> !ok && Now() == old(Now())
      ensures lastDemotionTs == end && !switchoverActive
      ensures pgMon.Valid() && pgMon.history == old(pgMon.history) + [SetActive(false)] + meanwhile
    {
      switchoverActive := true;
      pgMon.Activate(false);
      ok := switchover.ExecuteAsPrimary(calls);
      pgMon.Happen(meanwhile);
      lastDemotionTs := end;
      switchoverActive := false;
    }

    /** A SWITCHOVER_REQUEST: the flag is set before the thread starts and cleared however the promotion ends. */
    method RunSwitchoverAsStandby(script: PromoteScript) returns (ok: bool)
      requires Wired()
      modifies this, local, managers
      ensures old(local.IsStandby()) ==> Executed(Now(), ok) == PromoteRun(old(Now()), 0, script)
      ensures !old(local.IsStandby()) ==> !ok && Now() == old(Now())
      ensures !switchoverActive && lastDemotionTs == old(lastDemotionTs)
    {
      switchoverActive := true;
      ok := switchover.ExecuteAsStandby(script);
      switchoverActive := false;
    }

    /** A PEER_DEAD event: only a standby outside maintenance acts on it, within its attempt budget. */
    method HandlePeerDead(maintenance: bool, mono: real, script: FailScript) returns (started: bool, ok: bool)
      requires Wired() && failover.Valid()
      modifies failover, local, managers
      ensures started == (!maintenance && MayAttempt(old(failover.Spent()), old(local.IsStandby()), mono))
      ensures !started ==> !ok && Now() == old(Now()) && failover.Spent() == old(failover.Spent())
      ensures started ==> Executed(Now(), ok) == Ending(old(Now()), 0, script)
    {
      started, ok := false, false;
      if local.IsStandby() {
        if maintenance {
          return;
        }
        started := failover.ShouldAttempt(mono);
        if started {
          ok := failover.Execute(false, mono, script);
        }
      }
    }

    /** A PG_FAIL_HANDOFF: ignored during a switchover and in maintenance. */
    method HandlePgFailHandoff(maintenance: bool, mono: real, script: FailScript) returns (started: bool, ok: bool)
      requires Wired() && failover.Valid()
      modifies failover, local, managers
      ensures started == (!switchoverActive && !maintenance
                          && MayAttempt(old(failover.Spent()), old(local.IsStandby()), mono))
      ensures !started ==> !ok && Now() == old(Now()) && failover.Spent() == old(failover.Spent())
      ensures started ==> Executed(Now(), ok) == Ending(old(Now()), FIRST_UNSKIPPED, script)
    {
      started, ok := false, false;
      if switchoverActive || maintenance {
        return;
      }
      started := failover.ShouldAttempt(mono);
      if started {
        ok := failover.Execute(true, mono, script);
      }
    }

    method DoSelf(step: SelfStep, o: Outcome)
      modifies local, managers
      ensures Now() == SelfCall(old(Now()), step, o).site
    {
      match step
      case SelfRelease => var r := managers.DropVip(o, local);
      case SelfStop => var r := managers.StopPg(o, local);
      case SelfKill => managers.KillUsers(o, local);
      case SelfUnmount => var r := managers.UnmountDisk(o, local);
      case SelfDetach => var r := managers.DetachDisk(o, local);
      case SelfRole => local.SetRole(NodeRole.Standby);
      case SelfDisk => local.SetDiskState(Detached);
      case SelfRest =>
        local.SetPgState(Stopped);
        local.SetHealth(Healthy);
    }

    method SelfDemoteAfterPgFailure(calls: SelfStep -> Outcome, now: real)
      requires Wired() && pgMon.Valid()
      modifies this, local, managers, pgMon
      ensures pgMon.Valid() && switchoverActive == old(switchoverActive)
      ensures old(local.IsPrimary()) ==>
              && Now() == SelfRun(old(Now()), 0, calls)
              && pgMon.State() == MonNext(old(pgMon.State()), SetActive(false))
              && lastDemotionTs == now
      ensures !old(local.IsPrimary()) ==>
              Now() == old(Now()) && pgMon.State() == old(pgMon.State()) && lastDemotionTs == old(lastDemotionTs)
    {
      if !local.IsPrimary() {
        return;
      }
      var pc := 0;
      while pc < SELF_STEPS
        invariant pc <= SELF_STEPS && SelfRun(Now(), pc, calls) == SelfRun(old(Now()), 0, calls)
        invariant pgMon.Valid() && pgMon.State() == old(pgMon.State()) && pgMon.history == old(pgMon.history)
        invariant switchoverActive == old(switchoverActive)
        modifies local, managers
      {
        DoSelf(SelfStepAt(pc), calls(SelfStepAt(pc)));
        pc := pc + 1;
      }
      pgMon.Activate(false);
      MonSnoc(old(pgMon.history), SetActive(false));
      lastDemotionTs := now;
    }

    /** Refresh the record from the monitor's snapshot; `demote`: PostgreSQL has failed often enough. */
    method RefreshFromMonitor(maintenance: bool) returns (demote: bool)
      requires Wired() && pgMon.Valid()
      modifies local, pgMon
      ensures pgMon.Valid()
      ensures Refreshed(pgMon.State(), local.state, demote)
           == Refresh(old(pgMon.State()), old(local.state), switchoverActive || maintenance, threshold)
    {
      pgMon.Activate(local.IsPrimary());
      MonSnoc(old(pgMon.history), SetActive(old(local.IsPrimary())));
      demote := false;
      var snap := pgMon.snapshot;
      if snap.Some? {
        local.SetPgState(snap.value.state);
        if !snap.value.ok {
          if pgMon.failCount >= threshold {
            if local.IsPrimary() && !switchoverActive {
              if !maintenance {
                local.SetHealth(Failed);
                demote := true;
              }
            }
          }
        } else if local.state.health != Healthy {
          local.SetHealth(Healthy);
        }
      }
    }

    method HeartbeatFallback(around: Surroundings, now: real, mono: real) returns (fallback: bool)
      requires Wired()
      ensures fallback == (FallbackWanted(local.state, switchoverActive, lastDemotionTs, now, around)
                           && MayAttempt(failover.Spent(), local.IsStandby(), mono))
    {
      fallback := false;
      var inGrace := now - lastDemotionTs < Grace.GRACE;
      if local.IsStandby() && around.peerAlive && !inGrace && !switchoverActive && !around.maintenance {
        if around.peer.role == NodeRole.Standby && around.peer.diskState == Detached {
          fallback := failover.ShouldAttempt(mono);
        }
      }
    }

    /** One pass after the events have been drained; `fallback`: a failover without fencing is to be started. */
    method MainLoopPass(around: Surroundings, calls: SelfStep -> Outcome, now: real, mono: real)
        returns (demoted: bool, fallback: bool)
      requires Wired() && pgMon.Valid()
      modifies this, local, managers, pgMon
      ensures pgMon.Valid() && switchoverActive == old(switchoverActive)
      ensures Passed(Now(), pgMon.State(), demoted, fallback, lastDemotionTs)
           == PassRun(old(Now()), old(pgMon.State()), old(switchoverActive), old(lastDemotionTs),
                      old(failover.Spent()), threshold, around, calls, now, mono)
    {
      demoted := RefreshFromMonitor(around.maintenance);
      if demoted {
        SelfDemoteAfterPgFailure(calls, now);
      }
      if around.osDegraded {
        local.SetHealth(Degraded);
      }
      fallback := HeartbeatFallback(around, now, mono);
    }
  }

  lemma MonSnoc(hist: seq<MonEvent>, e: MonEvent)
    ensures MonAfter(hist + [e]) == MonNext(MonAfter(hist), e)
  {
    assert (hist + [e])[..|hist|] == hist;
  }

  /* ---------------- what a pass means ---------------- */

  /** A pass self-demotes exactly when the node is PRIMARY, neither a switchover nor maintenance holds it back, and
      the last checks, as many as the threshold, all failed; it never self-demotes and falls back in one; and the node
      it leaves standing by is a STANDBY only if it was one or has demoted itself. */
  lemma PassMeans(s: Site, hist: seq<MonEvent>, active: bool, lastDemotionTs: real, budget: Budget, threshold: nat,
                  around: Surroundings, calls: SelfStep -> Outcome, now: real, mono: real)
    requires threshold > 0
    ensures var p := PassRun(s, MonAfter(hist), active, lastDemotionTs, budget, threshold, around, calls, now, mono);
            var c := ChecksSince(hist);
            && (p.demoted <==>
                  && s.local.role == NodeRole.Primary && !active && !around.maintenance
                  && threshold <= |c| && (forall i :: |c| - threshold <= i < |c| ==> !c[i].ok))
            && !(p.demoted && p.fallback)
            && (p.demoted ==> p.site.local.role == NodeRole.Standby && p.site.local.diskState == Detached
                              && p.site.local.pgState == Stopped && p.lastDemotionTs == now && !p.mon.active)
            && (!p.demoted ==> p.site.local.role == s.local.role && p.site == s.(local := p.site.local))
  {
    SelfDemotionExactly(hist, s.local, active || around.maintenance, threshold);
    var r := Refresh(MonAfter(hist), s.local, active || around.maintenance, threshold);
    SelfRunRecords(s.(local := r.local), 0, calls);
  }

  /** Without a self-demotion the record follows the monitor: on a PRIMARY the PostgreSQL state is that of the last
      check since the monitor was last reset, a good last check makes the node healthy again, and role, disk state and
      everything outside the record stay; on a node that is not PRIMARY the monitor is switched off and says nothing;
      a degraded operating system shows in the health of either. */
  lemma PassRecords(s: Site, hist: seq<MonEvent>, active: bool, lastDemotionTs: real, budget: Budget, threshold: nat,
                    around: Surroundings, calls: SelfStep -> Outcome, now: real, mono: real)
    requires threshold > 0
    ensures var p := PassRun(s, MonAfter(hist), active, lastDemotionTs, budget, threshold, around, calls, now, mono);
            var c := if s.local.role == NodeRole.Primary then ChecksSince(hist) else [];
            !p.demoted ==>
              p.site == s.(local := s.local.(
                pgState := if c == [] then s.local.pgState else c[|c| - 1].state,
                health := if around.osDegraded then Degraded
                          else if c != [] && c[|c| - 1].ok then Healthy else s.local.health))
    ensures var p := PassRun(s, MonAfter(hist), active, lastDemotionTs, budget, threshold, around, calls, now, mono);
            !p.demoted ==>
              && p.mon == MonAfter(hist + [SetActive(s.local.role == NodeRole.Primary)])
              && p.lastDemotionTs == lastDemotionTs
  {
    PgMonitorRefines(hist);
    MonSnoc(hist, SetActive(s.local.role == NodeRole.Primary));
  }

  /** Whatever the calls answer, the record ends as STANDBY, DETACHED, STOPPED. */
  lemma {:induction false} SelfRunRecords(s: Site, pc: nat, calls: SelfStep -> Outcome)
    requires pc < SELF_STEPS
    requires (pc >= 6 ==> s.local.role == NodeRole.Standby) && (pc >= 7 ==> s.local.diskState == Detached)
    ensures var l := SelfRun(s, pc, calls).local;
            l.role == NodeRole.Standby && l.diskState == Detached && l.pgState == Stopped && l.health == Healthy
    decreases SELF_STEPS - pc
  {
    if pc + 1 < SELF_STEPS {
      SelfRunRecords(SelfCall(s, SelfStepAt(pc), calls(SelfStepAt(pc))).site, pc + 1, calls);
    }
  }

  /** An uninterrupted self-demotion is a run of the protocol, of all its steps with the very answers given. */
  lemma {:induction false} SelfDemotionIsRun(w: World, n: Node, pc: nat, calls: SelfStep -> Outcome)
      returns (acts: seq<Action>)
    requires pc < SELF_STEPS && w.At(n).proc == SelfDemoting(pc)
    ensures Solo(w, n, acts, SelfRun(SiteOf(w, n), pc, calls))
    ensures |acts| == SELF_STEPS - pc && SelfPlayed(acts, n, pc, calls)
    decreases SELF_STEPS - pc
  {
    hide Solo, SelfCall, SelfPlayed;
    var act := SelfAct(n, calls(SelfStepAt(pc)));
    ViewsAfter(w, act);
    var rest: seq<Action> := [];
    if pc + 1 == SELF_STEPS {
      acts := [act] + [];
      assert acts == [act];
      SoloOne(w, n, act);
      SelfPlayedNone(n, pc + 1, calls);
    } else {
      rest := SelfDemotionIsRun(Step(w, act), n, pc + 1, calls);
      acts := [act] + rest;
      SoloCons(w, n, act, rest, SelfRun(SiteOf(w, n), pc, calls));
    }
    SelfPlayedCons(act, rest, n, pc, calls);
  }

  /** The steps of a self-demotion from pc on, with the answers given. */
  predicate SelfPlayed(acts: seq<Action>, n: Node, pc: nat, calls: SelfStep -> Outcome) {
    forall i :: 0 <= i < |acts| ==> acts[i] == SelfAct(n, calls(SelfStepAt(pc + i)))
  }

  lemma SelfPlayedNone(n: Node, pc: nat, calls: SelfStep -> Outcome)
    ensures SelfPlayed([], n, pc, calls)
  {}

  lemma SelfPlayedCons(act: Action, rest: seq<Action>, n: Node, pc: nat, calls: SelfStep -> Outcome)
    requires act == SelfAct(n, calls(SelfStepAt(pc))) && SelfPlayed(rest, n, pc + 1, calls)
    ensures SelfPlayed([act] + rest, n, pc, calls)
  {
    var acts := [act] + rest;
    forall i | 0 <= i < |acts| ensures acts[i] == SelfAct(n, calls(SelfStepAt(pc + i))) {
      assert i > 0 ==> acts[i] == rest[i - 1] && pc + i == pc + 1 + (i - 1);
    }
  }

  lemma ObserveGives(w: World, n: Node, pg: PgState, health: NodeHealth)
    requires MainLoopFree(w.At(n).proc)
    ensures Enabled(w, Observe(n, pg, health))
    ensures var v := Step(w, Observe(n, pg, health));
            v.At(n).proc == w.At(n).proc && SiteOf(v, n) == SetHealth(SetPg(SiteOf(w, n), pg), health)
  {
    ViewsAfter(w, Observe(n, pg, health));
  }

  /** A pass of the main loop that does not self-demote is one Observe of the protocol, whatever engine is running. */
  lemma PassIsObserve(w: World, n: Node, hist: seq<MonEvent>, active: bool, lastDemotionTs: real, budget: Budget,
                      threshold: nat, around: Surroundings, calls: SelfStep -> Outcome, now: real, mono: real)
    requires MainLoopFree(w.At(n).proc) && threshold > 0
    ensures var p := PassRun(SiteOf(w, n), MonAfter(hist), active, lastDemotionTs, budget, threshold, around, calls,
                             now, mono);
            !p.demoted ==>
              var act := Observe(n, p.site.local.pgState, p.site.local.health);
              Enabled(w, act) && SiteOf(Step(w, act), n) == p.site && Step(w, act).At(n).proc == w.At(n).proc
  {
    var p := PassRun(SiteOf(w, n), MonAfter(hist), active, lastDemotionTs, budget, threshold, around, calls, now, mono);
    ObserveGives(w, n, p.site.local.pgState, p.site.local.health);
    PassRecords(SiteOf(w, n), hist, active, lastDemotionTs, budget, threshold, around, calls, now, mono);
  }

  /** A pass that does is an Observe, the whole self-demotion, and another Observe if the operating system is
      overloaded. */
  lemma DemotingPassIsRun(w: World, n: Node, mon: PgMon, lastDemotionTs: real, budget: Budget, threshold: nat,
                          around: Surroundings, calls: SelfStep -> Outcome, now: real, mono: real)
      returns (acts: seq<Action>)
    requires w.At(n).proc == Idle
    requires PassRun(SiteOf(w, n), mon, false, lastDemotionTs, budget, threshold, around, calls, now, mono).demoted
    ensures Run(w, acts)
    ensures var p := PassRun(SiteOf(w, n), mon, false, lastDemotionTs, budget, threshold, around, calls, now, mono);
            SiteOf(After(w, acts), n) == p.site && After(w, acts).At(n).proc == Idle
  {
    hide SelfRun, Enabled, Step, Solo, SelfPlayed, SelfStepAt;
    var r := Refresh(mon, w.At(n).local, around.maintenance, threshold);
    var seen := Observe(n, r.local.pgState, r.local.health);
    ObserveGives(w, n, r.local.pgState, r.local.health);
    var w1 := Step(w, seen);
    StartsSelf(w1, n);
    var w2 := Step(w1, SelfStart(n));
    var demotion := SelfDemotionIsRun(w2, n, 0, calls);
    SoloGives(w2, n, demotion, SelfRun(SiteOf(w2, n), 0, calls));
    RunCons(w1, SelfStart(n), demotion);
    acts := [seen] + ([SelfStart(n)] + demotion);
    RunCons(w, seen, [SelfStart(n)] + demotion);
    if around.osDegraded {
      var v := After(w, acts);
      ObserveGives(v, n, v.At(n).local.pgState, Degraded);
      RunSnoc(w, acts, Observe(n, v.At(n).local.pgState, Degraded));
      acts := acts + [Observe(n, v.At(n).local.pgState, Degraded)];
    }
  }

  lemma StartsSelf(w: World, n: Node)
    requires w.At(n).proc == Idle && w.At(n).local.role == NodeRole.Primary
    ensures Enabled(w, SelfStart(n))
    ensures var v := Step(w, SelfStart(n)); v.At(n).proc == SelfDemoting(0) && SiteOf(v, n) == SiteOf(w, n)
  {
    ViewsAfter(w, SelfStart(n));
  }

  lemma SoloGives(w: World, n: Node, acts: seq<Action>, s: Site)
    requires Solo(w, n, acts, s)
    ensures Run(w, acts) && SiteOf(After(w, acts), n) == s && After(w, acts).At(n).proc == Idle
  {}
}
