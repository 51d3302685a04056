/** What a SWITCHOVER_REQUEST tells about the world at the moment it is sent. */
module Handover {
  import opened Basics
  import opened Models
  import opened Aliases
  import opened Calls
  import opened Protocol
  import opened Exclusivity
  import opened Monitors
  import opened Recovery
  import opened SwitchoverFacts
  import Causality

  /** On the primary side of a switchover a release that returns took effect, and the look-up before a detach works. */
  predicate ReleaseContract(w: World, act: Action) {
    act.DemoteAct? ==> !act.o.blind && (act.o.reply == Returned ==> act.o.effect)
  }

  /** What has been given up by the time a demotion stands at step pc. */
  predicate GivenUp(s: Site, proc: Proc) {
    proc.Demoting? ==>
      && (proc.pc >= 2 ==> s.vip !in s.mine)
      && (proc.pc >= 3 ==> !s.running)
      && (proc.pc >= 4 ==> !s.mounted)
      && (proc.pc >= 5 ==> s.holder != Some(s.self) && s.local.diskState == Detached)
  }

  lemma GivenUpDemote(s: Site, pc: nat, o: Outcome)
    requires pc < DEMOTE_STEPS && GivenUp(s, Demoting(pc)) && !o.blind && (o.reply == Returned ==> o.effect)
    ensures var m := DemoteMove(s, pc, o); GivenUp(m.site, m.proc)
  {
    WithoutSpec(s.mine, s.vip);
  }

  lemma GivenUpOwn(w: World, act: Action)
    requires Enabled(w, act) && ReleaseContract(w, act) && GivenUp(SiteOf(w, act.n), w.At(act.n).proc)
    ensures GivenUp(MoveAt(w, act).site, MoveAt(w, act).proc)
  {
    hide PromoteCall, SelfCall, FailCall, ElectCall, UndoCall, DemoteMove;
    match act
    case DemoteAct(_, o) => GivenUpDemote(SiteOf(w, act.n), w.At(act.n).proc.pc, o);
    case _ =>
  }

  lemma GivenUpStep(w: World, act: Action, n: Node)
    requires Enabled(w, act) && ReleaseContract(w, act) && GivenUp(SiteOf(w, n), w.At(n).proc)
    ensures GivenUp(SiteOf(Step(w, act), n), Step(w, act).At(n).proc)
  {
    hide MoveOf;
    ViewsAfter(w, act);
    if act.n == n {
      GivenUpOwn(w, act);
    } else {
      PeerCannotUndo(w, n, act);
    }
  }

  lemma {:induction false} GivenUpAlong(w: World, acts: seq<Action>, i: nat, n: Node)
    requires Run(w, acts) && AllIdle(w) && Obeys(w, acts, ReleaseContract) && i <= |acts|
    ensures GivenUp(SiteOf(StateAt(w, acts, i), n), StateAt(w, acts, i).At(n).proc)
  {
    hide MoveOf, GivenUp;
    if i == 0 {
      StateFirst(w, acts);
      GivenUpStart(w, n);
    } else {
      GivenUpAlong(w, acts, i - 1, n);
      StateNext(w, acts, i - 1);
      GivenUpStep(StateAt(w, acts, i - 1), acts[i - 1], n);
    }
  }

  lemma GivenUpStart(w: World, n: Node)
    requires AllIdle(w)
    ensures GivenUp(SiteOf(w, n), w.At(n).proc)
  {}

  /** Whenever a SWITCHOVER_REQUEST is sent, in any run and whatever the peer and the main loop are doing, the sender
      has stopped PostgreSQL, unmounted, given the disk up and taken the VIP off its NIC; its record has the disk
      detached and the node still PRIMARY. */
  lemma RequestMeansFree(w: World, acts: seq<Action>, i: nat)
    requires Run(w, acts) && AllIdle(w) && Obeys(w, acts, ReleaseContract) && i < |acts|
    requires MoveAt(StateAt(w, acts, i), acts[i]).sent
    ensures var v := StateAt(w, acts, i); var h := v.At(acts[i].n);
            && !h.running && !h.mounted && v.holder != Some(acts[i].n) && v.vip !in h.aliases
            && h.local.diskState == Detached && h.local.role == NodeRole.Primary
  {
    GivenUpAlong(w, acts, i, acts[i].n);
    Causality.RoleAlong(w, acts, i, acts[i].n);
    Causality.SentAtSignal(StateAt(w, acts, i), acts[i]);
  }

  /* ---------------- what the record then says of PostgreSQL ---------------- */

  /** What a pass of the main loop finds of PostgreSQL on a PRIMARY: the state of the last check that its monitor has
      made since it was last reset or switched off, if it has made one. */
  function Found(hist: seq<MonEvent>): Option<PgState> {
    var c := ChecksSince(hist);
    if c == [] then None else Some(c[|c| - 1].state)
  }

  /** hist(m) is the history of n's monitor at the time of action m, and what a pass of n's main loop writes is what the
      refresh makes of it; the switchover blocks a self-demotion. */
  ghost predicate Watched(w: World, acts: seq<Action>, n: Node, hist: nat -> seq<MonEvent>) {
    forall m :: 0 <= m < |acts| && acts[m].Observe? && acts[m].n == n ==>
      acts[m].pg == Refresh(MonAfter(hist(m)), StateAt(w, acts, m).At(n).local, true, 1).local.pgState
  }

  /** What the passes of n's main loop from action j up to action i found last. */
  function LastFound(acts: seq<Action>, n: Node, hist: nat -> seq<MonEvent>, j: nat, i: nat): Option<PgState>
    requires i <= |acts|
  {
    if i <= j then None
    else if acts[i - 1].Observe? && acts[i - 1].n == n && Found(hist(i - 1)).Some? then Found(hist(i - 1))
    else LastFound(acts, n, hist, j, i - 1)
  }

  function Recorded(found: Option<PgState>): PgState {
    if found.Some? then found.value else Stopped
  }

  lemma RefreshWrites(hist: seq<MonEvent>, local: NodeState)
    requires local.role == NodeRole.Primary
    ensures Refresh(MonAfter(hist), local, true, 1).local.pgState
         == if Found(hist).Some? then Found(hist).value else local.pgState
  {
    PgMonitorRefines(hist);
  }

  /** Past PG_STOP only the main loop writes the PostgreSQL state. */
  lemma PgKept(w: World, act: Action, n: Node)
    requires Enabled(w, act) && Causality.Beyond(w.At(n).proc, false, 2)
    requires Causality.Beyond(Step(w, act).At(n).proc, false, 2)
    ensures Step(w, act).At(n).local.pgState
         == if act.Observe? && act.n == n then act.pg else w.At(n).local.pgState
  {
    hide PromoteMove, SelfMove, FailMove, ElectMove, UndoMove, ElectUndoMove;
    ViewsAfter(w, act);
  }

  lemma StopRecords(w: World, act: Action)
    requires Enabled(w, act) && act.DemoteAct? && w.At(act.n).proc == Demoting(2)
    requires Step(w, act).At(act.n).proc == Demoting(3)
    ensures Step(w, act).At(act.n).local.pgState == Stopped
  {
    ViewsAfter(w, act);
  }

  lemma {:induction false} PgAlong(w: World, acts: seq<Action>, n: Node, hist: nat -> seq<MonEvent>,
                                   stop: nat, i: nat)
    requires Run(w, acts) && AllIdle(w) && i <= |acts| && Causality.TookStep(w, acts, n, false, 2, stop, i)
    requires Watched(w, acts, n, hist)
    ensures StateAt(w, acts, i).At(n).local.pgState == Recorded(LastFound(acts, n, hist, stop + 1, i))
    decreases i
  {
    hide MoveOf, Step, StateAt, Enabled, Causality.TookStep, Refresh, Found;
    Causality.TookWhen(w, acts, n, false, 2, stop, i);
    StateNext(w, acts, i - 1);
    if i == stop + 1 {
      StopRecords(StateAt(w, acts, stop), acts[stop]);
    } else {
      PgAlong(w, acts, n, hist, stop, i - 1);
      PgKept(StateAt(w, acts, i - 1), acts[i - 1], n);
      Causality.RoleAlong(w, acts, i - 1, n);
      RefreshWrites(hist(i - 1), StateAt(w, acts, i - 1).At(n).local);
    }
  }

  /** When a SWITCHOVER_REQUEST is sent the sender's record says STOPPED if and only if, since PG_STOP returned, no pass
      of its main loop has found a check made since its monitor was last switched off, or the last one to find such a
      check found PostgreSQL stopped. */
  lemma RequestSaysStoppedExactly(w: World, acts: seq<Action>, i: nat, hist: nat -> seq<MonEvent>) returns (stop: nat)
    requires Run(w, acts) && AllIdle(w) && i < |acts| && MoveAt(StateAt(w, acts, i), acts[i]).sent
    requires Watched(w, acts, acts[i].n, hist)
    ensures Causality.TookStep(w, acts, acts[i].n, false, 2, stop, i) && DemoteStepAt(2) == PgStop
    ensures StateAt(w, acts, i).At(acts[i].n).local.pgState == Stopped
       <==> LastFound(acts, acts[i].n, hist, stop + 1, i) in {None, Some(Stopped)}
  {
    hide MoveOf;
    var vip, umount, detach;
    vip, stop, umount, detach := Causality.RequestAfterRelease(w, acts, i);
    PgAlong(w, acts, acts[i].n, hist, stop, i);
  }

  /** The command switches the monitor off, a pass switches it on again, and a check finds the server still running. */
  const GOOD_CHECK: seq<MonEvent> :=
    [SetActive(false)] + [SetActive(true)] + [Checked(PgSnapshot(true, RunningPrimary))]

  lemma GoodCheckFound()
    ensures Found(GOOD_CHECK) == Some(RunningPrimary)
  {
    var h1, h2 := [SetActive(false)], [SetActive(false)] + [SetActive(true)];
    assert h1[..0] == [] && h2[..1] == h1 && GOOD_CHECK[..2] == h2;
    assert ChecksSince(h1) == [] && ChecksSince(h2) == [] && Active(h2);
  }

  predicate Fine(act: Action, n: Node) {
    act == Command(n) || act == DemoteAct(n, DONE) || act == Observe(n, RunningPrimary, Healthy)
  }

  lemma DemoteOn(w: World, n: Node, pc: nat)
    requires w.At(n).proc == Demoting(pc) && pc < 5
    ensures Enabled(w, DemoteAct(n, DONE)) && Step(w, DemoteAct(n, DONE)).At(n).proc == Demoting(pc + 1)
    ensures Step(w, DemoteAct(n, DONE)).At(n).local.role == w.At(n).local.role
    ensures pc >= 3 ==> Step(w, DemoteAct(n, DONE)).At(n).local.pgState == w.At(n).local.pgState
  {
  }

  lemma Observes(w: World, n: Node)
    requires w.At(n).proc == Demoting(3)
    ensures var act := Observe(n, RunningPrimary, Healthy); var h := Step(w, act).At(n);
            && Enabled(w, act) && h.proc == Demoting(3)
            && h.local.pgState == RunningPrimary && h.local.role == w.At(n).local.role
  {
  }

  lemma WatchedCons(w: World, act: Action, acts: seq<Action>, n: Node)
    requires Enabled(w, act) && Fine(act, n) && (act.Observe? ==> w.At(n).local.role == NodeRole.Primary)
    requires Watched(Step(w, act), acts, n, m => GOOD_CHECK)
    ensures Watched(w, [act] + acts, n, m => GOOD_CHECK)
  {
    hide Refresh, Enabled, Step;
    GoodCheckFound();
    var longer := [act] + acts;
    forall m | 0 <= m < |longer| && longer[m].Observe? && longer[m].n == n
      ensures longer[m].pg == Refresh(MonAfter(GOOD_CHECK), StateAt(w, longer, m).At(n).local, true, 1).local.pgState
    {
      if m == 0 {
        StateFirst(w, longer);
        RefreshWrites(GOOD_CHECK, w.At(n).local);
      } else {
        StateCons(w, act, acts, m);
        assert acts[m - 1] == longer[m];
      }
    }
  }

  /** From step pc to SIGNAL_PEER, with one pass of the main loop right after PG_STOP. */
  lemma {:induction false} DemotesSeen(w: World, n: Node, pc: nat, seen: bool) returns (acts: seq<Action>)
    requires w.At(n).proc == Demoting(pc) && pc <= 5 && w.At(n).local.role == NodeRole.Primary
    requires (seen ==> pc >= 3 && w.At(n).local.pgState == RunningPrimary) && (pc > 3 ==> seen)
    ensures Run(w, acts) && (forall act <- acts :: Fine(act, n)) && Watched(w, acts, n, m => GOOD_CHECK)
    ensures After(w, acts).At(n).proc == Demoting(5) && After(w, acts).At(n).local.pgState == RunningPrimary
    decreases 5 - pc, !seen
  {
    hide Enabled, Step, Watched;
    if pc == 5 {
      acts := [];
      NoneWatched(w, n);
    } else {
      var act := if pc == 3 && !seen then Observe(n, RunningPrimary, Healthy) else DemoteAct(n, DONE);
      var rest: seq<Action>;
      if act.Observe? {
        Observes(w, n);
        rest := DemotesSeen(Step(w, act), n, 3, true);
      } else {
        DemoteOn(w, n, pc);
        rest := DemotesSeen(Step(w, act), n, pc + 1, seen);
      }
      acts := [act] + rest;
      RunCons(w, act, rest);
      WatchedCons(w, act, rest, n);
    }
  }

  lemma NoneWatched(w: World, n: Node)
    ensures Watched(w, [], n, m => GOOD_CHECK)
  {}

  /** And it need not: a good check made before PG_STOP and written down by a pass after it leaves a node that has
      stopped PostgreSQL, and sends the request, recorded as running it. */
  lemma RequestWhileRecordedRunning(w: World, n: Node) returns (acts: seq<Action>)
    requires w.At(n).proc == Idle && w.At(n).local.role == NodeRole.Primary
    ensures Run(w, acts) && (forall act <- acts :: Fine(act, n)) && Watched(w, acts, n, m => GOOD_CHECK)
    ensures var v := After(w, acts);
            && Enabled(v, DemoteAct(n, DONE)) && MoveAt(v, DemoteAct(n, DONE)).sent
            && v.At(n).local.pgState == RunningPrimary
  {
    var command := Command(n);
    var rest := DemotesSeen(Step(w, command), n, 0, false);
    acts := [command] + rest;
    RunCons(w, command, rest);
    WatchedCons(w, command, rest, n);
  }
}
