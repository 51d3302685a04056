/** cluster/election.py: the startup election. */
module Election {
  import opened Basics
  import opened Models
  import opened Calls
  import opened Protocol
  import opened LocalNodes
  import opened Resources
  import opened SwitchoverFacts
  import Aliases

  /** What the environment answers during one election. */
  datatype ElectScript = ElectScript(
    query: Outcome,
    call: ElectStep -> Outcome,
    stop: Outcome,
    unmount: Outcome)

  /** `role` is None when an error escapes and the daemon ends. */
  datatype Elected = Elected(site: Site, role: Option<NodeRole>)

  function Standbyish(s: Site): Elected {
    Elected(AsStandby(s), Some(NodeRole.Standby))
  }

  function RollbackPrimary(s: Site, script: ElectScript): Site {
    Unmount(StopPostgres(s, script.stop).site, script.unmount).site
  }

  /** Mount, start, free and add the VIP, settle; an error is undone and ends in STANDBY. */
  function BecomePrimary(s: Site, pc: nat, script: ElectScript): Elected
    requires 1 <= pc <= ELECT_STEPS
    decreases ELECT_STEPS - pc
  {
    if pc == ELECT_STEPS then Elected(s, Some(NodeRole.Primary))
    else
      var d := ElectCall(s, ElectStepAt(pc), script.call(ElectStepAt(pc)));
      if d.Raised() then Standbyish(RollbackPrimary(SetHealth(d.site, Failed), script))
      else BecomePrimary(d.site, pc + 1, script)
  }

  function Compete(s: Site, script: ElectScript): Elected {
    var d := Attach(s, script.call(ElAttach));
    if !d.Raised() then BecomePrimary(d.site, 1, script)
    else if d.reply == OtherError then Elected(d.site, None)
    else Standbyish(d.site)
  }

  function Elect(s: Site, script: ElectScript): Elected {
    if script.query.blind || s.holder == None then Compete(s, script)
    else if s.holder == Some(s.self) then BecomePrimary(s, 1, script)
    else Standbyish(s)
  }

  class ElectionManager {
    const local: LocalNode
    const managers: Managers

    constructor (local: LocalNode, managers: Managers)
      ensures this.local == local && this.managers == managers
    {
      this.local, this.managers := local, managers;
    }

    ghost function Now(): Site
      reads this, local, managers
    {
      managers.View(local)
    }

    method RunElection(script: ElectScript) returns (role: Option<NodeRole>)
      modifies local, managers
      ensures Elected(Now(), role) == Elect(old(Now()), script)
    {
      var holder := managers.CurrentRwHolder(script.query.blind);
      if holder == Some(managers.self) {
        role := PrimaryFrom(script);
      } else if holder != None {
        BecomeStandby();
        role := Some(NodeRole.Standby);
      } else {
        var r := managers.AttachDiskRw(script.call(ElAttach), local);
        if r == Returned {
          role := PrimaryFrom(script);
        } else if r == OtherError {
          role := None;
        } else {
          BecomeStandby();
          role := Some(NodeRole.Standby);
        }
      }
    }

    method BecomeStandby()
      modifies local
      ensures Now() == AsStandby(old(Now()))
    {
      local.SetRole(NodeRole.Standby);
      local.SetDiskState(Detached);
      local.SetPgState(Stopped);
      local.SetHealth(Healthy);
    }

    method PrimaryFrom(script: ElectScript) returns (role: Option<NodeRole>)
      modifies local, managers
      ensures Elected(Now(), role) == BecomePrimary(old(Now()), 1, script)
    {
      var pc := 1;
      while pc < ELECT_STEPS
        invariant 1 <= pc <= ELECT_STEPS
        invariant BecomePrimary(Now(), pc, script) == BecomePrimary(old(Now()), 1, script)
      {
        var r := DoStep(ElectStepAt(pc), script.call(ElectStepAt(pc)));
        if r != Returned {
          local.SetHealth(Failed);
          var r1 := managers.StopPg(script.stop, local);
          var r2 := managers.UnmountDisk(script.unmount, local);
          BecomeStandby();
          return Some(NodeRole.Standby);
        }
        pc := pc + 1;
      }
      role := Some(NodeRole.Primary);
    }

    method DoStep(step: ElectStep, o: Outcome) returns (r: Reply)
      modifies local, managers
      ensures Did(Now(), r) == ElectCall(old(Now()), step, o)
    {
      match step
      case ElAttach => r := managers.AttachDiskRw(o, local);
      case ElMount => r := managers.MountDisk(o, local);
      case ElPgStart => r := managers.StartPg(o, local);
      case ElVipFree => r := managers.FreeVipFromPeer(o, local);
      case ElVipAdd => r := managers.TakeVip(o, local);
      case ElSettle =>
        local.SetRole(NodeRole.Primary);
        local.SetDiskState(AttachedRw);
        local.SetPgState(RunningPrimary);
        local.SetHealth(Healthy);
        r := Returned;
    }
  }

  /* ---------------- coherence ---------------- */

  predicate PrimaryRecord(l: NodeState) {
    l.role == NodeRole.Primary && l.diskState == AttachedRw && l.pgState == RunningPrimary && l.health == Healthy
  }

  predicate StandbyRecord(l: NodeState) {
    l.role == NodeRole.Standby && l.diskState == Detached && l.pgState == Stopped && l.health == Healthy
  }

  /** Every call from step pc on returns, each made in the state its predecessors leave. */
  predicate AllReturn(s: Site, pc: nat, script: ElectScript)
    requires pc <= ELECT_STEPS
    decreases ELECT_STEPS - pc
  {
    pc == ELECT_STEPS
    || (var d := ElectCall(s, ElectStepAt(pc), script.call(ElectStepAt(pc)));
        !d.Raised() && AllReturn(d.site, pc + 1, script))
  }

  lemma {:induction false} BecomePrimaryCoherent(s: Site, pc: nat, script: ElectScript)
    requires 1 <= pc < ELECT_STEPS
    ensures var e := BecomePrimary(s, pc, script);
            && e.role.Some?
            && (e.role.value == NodeRole.Primary <==> AllReturn(s, pc, script))
            && (if e.role.value == NodeRole.Primary then PrimaryRecord(e.site.local) else StandbyRecord(e.site.local))
            && e.role.value == e.site.local.role
            && (e.role.value == NodeRole.Standby && script.stop.effect && script.unmount.effect ==>
                  !e.site.running && !e.site.mounted)
    decreases ELECT_STEPS - pc
  {
    var d := ElectCall(s, ElectStepAt(pc), script.call(ElectStepAt(pc)));
    if !d.Raised() && pc + 1 < ELECT_STEPS {
      BecomePrimaryCoherent(d.site, pc + 1, script);
    }
  }

  /** The calls on the path to PRIMARY, given what the query showed. */
  predicate PathReturns(s: Site, script: ElectScript) {
    if script.query.blind || s.holder == None then AllReturn(s, 0, script)
    else s.holder == Some(s.self) && AllReturn(s, 1, script)
  }

  /** The error that no handler on the election's path catches. */
  predicate Escapes(s: Site, script: ElectScript) {
    (script.query.blind || s.holder == None) && Attach(s, script.call(ElAttach)).reply == OtherError
  }

  /** For every holder and every pattern of errors: unless the first attach fails with something other than a
      RuntimeError, the election ends in exactly one of the two coherent records, PRIMARY if and only if the peer was
      not seen to hold the disk and every call on the path returned; in the excepted case, and only then, it ends in
      neither and leaves the record as it was. */
  lemma ElectionCoherent(s: Site, script: ElectScript)
    ensures var e := Elect(s, script);
            && (e.role.None? <==> Escapes(s, script))
            && (e.role.None? ==> e.site.local == s.local)
            && (e.role == Some(NodeRole.Primary) <==> PathReturns(s, script))
            && (e.role == Some(NodeRole.Primary) ==> PrimaryRecord(e.site.local))
            && (e.role.Some? && e.role != Some(NodeRole.Primary) ==>
                  e.role == Some(NodeRole.Standby) && StandbyRecord(e.site.local))
  {
    if s.holder == Some(s.self) {
      BecomePrimaryCoherent(s, 1, script);
    }
    var d := Attach(s, script.call(ElAttach));
    if !d.Raised() {
      BecomePrimaryCoherent(d.site, 1, script);
    }
  }

  /** The election gets past its query and its attach, to where it starts to build on the disk. */
  predicate GetsIn(s: Site, script: ElectScript) {
    if script.query.blind || s.holder == None then !Attach(s, script.call(ElAttach)).Raised()
    else s.holder == Some(s.self)
  }

  /** One that got in and failed, and whose undo works, leaves no server and no mount, also on a node that came with
      both; one that stood by at once has touched neither. */
  lemma FailedElectionReleases(s: Site, script: ElectScript)
    requires script.stop.effect && script.unmount.effect
    ensures var e := Elect(s, script);
            e.role == Some(NodeRole.Standby) ==>
              if GetsIn(s, script) then !e.site.running && !e.site.mounted
              else e.site.running == s.running && e.site.mounted == s.mounted
  {
    if s.holder == Some(s.self) {
      BecomePrimaryCoherent(s, 1, script);
    }
    var d := Attach(s, script.call(ElAttach));
    if !d.Raised() {
      BecomePrimaryCoherent(d.site, 1, script);
    }
  }

  lemma {:induction false} BecomePrimaryKeepsHolder(s: Site, pc: nat, script: ElectScript)
    requires 1 <= pc <= ELECT_STEPS
    ensures BecomePrimary(s, pc, script).site.holder == s.holder
    decreases ELECT_STEPS - pc
  {
    if pc < ELECT_STEPS {
      BecomePrimaryKeepsHolder(ElectCall(s, ElectStepAt(pc), script.call(ElectStepAt(pc))).site, pc + 1, script);
    }
  }

  /** But nothing undoes the attachment: once the attach has taken effect the disk is this node's whatever follows,
      also when the election ends in STANDBY recorded as detached; and no election ever leaves the disk attached to
      nobody that was attached to somebody. */
  lemma ElectionNeverDetaches(s: Site, script: ElectScript)
    ensures var e := Elect(s, script);
            && (e.site.holder == s.holder || e.site.holder == Some(s.self))
            && ((script.query.blind || s.holder == None) && script.call(ElAttach).effect ==>
                  e.site.holder == Some(s.self))
  {
    BecomePrimaryKeepsHolder(s, 1, script);
    BecomePrimaryKeepsHolder(Attach(s, script.call(ElAttach)).site, 1, script);
  }

  /** Calls that return took effect, and the look at the peer's NIC works. */
  ghost predicate HonestElection(script: ElectScript) {
    && (forall step :: script.call(step).reply == Returned ==> script.call(step).effect)
    && !script.call(ElVipFree).blind
  }

  predicate ElectBuilt(s: Site, pc: nat) {
    && (pc >= 1 ==> s.holder == Some(s.self))
    && (pc >= 2 ==> s.mounted)
    && (pc >= 3 ==> s.running)
    && (pc >= 4 ==> s.vip !in s.peers)
    && (pc >= 5 ==> s.vip in s.mine)
  }

  lemma ElectOneBuilds(s: Site, pc: nat, script: ElectScript)
    requires pc < ELECT_STEPS && ElectBuilt(s, pc) && HonestElection(script)
    ensures var d := ElectCall(s, ElectStepAt(pc), script.call(ElectStepAt(pc)));
            !d.Raised() ==> ElectBuilt(d.site, pc + 1) && d.site.self == s.self && d.site.vip == s.vip
  {
    Aliases.WithoutSpec(s.peers, s.vip);
    var o := script.call(ElectStepAt(pc));
    assert o.reply == Returned ==> o.effect;
  }

  lemma {:induction false} BecomePrimaryBuilds(s: Site, pc: nat, script: ElectScript)
    requires 1 <= pc <= ELECT_STEPS && ElectBuilt(s, pc) && HonestElection(script)
    ensures var e := BecomePrimary(s, pc, script);
            e.role == Some(NodeRole.Primary) ==>
              ElectBuilt(e.site, ELECT_STEPS) && e.site.self == s.self && e.site.vip == s.vip
    decreases ELECT_STEPS - pc
  {
    if pc < ELECT_STEPS {
      ElectOneBuilds(s, pc, script);
      var d := ElectCall(s, ElectStepAt(pc), script.call(ElectStepAt(pc)));
      if !d.Raised() {
        BecomePrimaryBuilds(d.site, pc + 1, script);
      }
    }
  }

  /** An election that ends in PRIMARY has the disk, the mount, a running server and the VIP, and the peer has
      no VIP. */
  lemma ElectedPrimaryHasAll(s: Site, script: ElectScript)
    requires HonestElection(script)
    ensures var e := Elect(s, script);
            e.role == Some(NodeRole.Primary) ==>
              && e.site.holder == Some(s.self) && e.site.mounted && e.site.running
              && s.vip in e.site.mine && s.vip !in e.site.peers
  {
    if s.holder == Some(s.self) {
      BecomePrimaryBuilds(s, 1, script);
    }
    ElectOneBuilds(s, 0, script);
    var d := Attach(s, script.call(ElAttach));
    if !d.Raised() {
      BecomePrimaryBuilds(d.site, 1, script);
    }
  }

  /* ---------------- an election is a run ---------------- */

  /** Actions of n's election with the answers of the script. */
  ghost predicate Played(acts: seq<Action>, n: Node, script: ElectScript) {
    forall act <- acts ::
      || act == QueryAct(n, script.query)
      || (act.ElectAct? && exists step :: act == ElectAct(n, script.call(step)))
      || act in {ElectUndoAct(n, script.stop), ElectUndoAct(n, script.unmount)}
  }

  lemma {:induction false} BecomePrimaryIsRun(w: World, n: Node, pc: nat, script: ElectScript)
      returns (acts: seq<Action>)
    requires 1 <= pc < ELECT_STEPS && w.At(n).proc == Electing(pc)
    ensures Solo(w, n, acts, BecomePrimary(SiteOf(w, n), pc, script).site)
    ensures Played(acts, n, script)
    decreases ELECT_STEPS - pc
  {
    hide Solo;
    var s := SiteOf(w, n);
    var act := ElectAct(n, script.call(ElectStepAt(pc)));
    var m := MoveAt(w, act);
    ViewsAfter(w, act);
    if m.proc == Idle {
      acts := [act];
      SoloOne(w, n, act);
    } else if m.proc == ElectUndoing(0) {
      var rest := RollbackIsRun(Step(w, act), n, script);
      acts := [act] + rest;
      SoloCons(w, n, act, rest, BecomePrimary(s, pc, script).site);
    } else {
      var rest := BecomePrimaryIsRun(Step(w, act), n, pc + 1, script);
      acts := [act] + rest;
      SoloCons(w, n, act, rest, BecomePrimary(s, pc, script).site);
    }
  }

  lemma RollbackIsRun(w: World, n: Node, script: ElectScript) returns (acts: seq<Action>)
    requires w.At(n).proc == ElectUndoing(0)
    ensures Solo(w, n, acts, AsStandby(RollbackPrimary(SiteOf(w, n), script)))
    ensures Played(acts, n, script)
  {
    var stop, unmount := ElectUndoAct(n, script.stop), ElectUndoAct(n, script.unmount);
    ViewsAfter(w, stop);
    SoloOne(Step(w, stop), n, unmount);
    acts := [stop] + [unmount];
    SoloCons(w, n, stop, [unmount], AsStandby(RollbackPrimary(SiteOf(w, n), script)));
  }

  /** An uninterrupted election is a run of the protocol, with the very answers given. */
  lemma ElectionIsRun(w: World, n: Node, script: ElectScript) returns (acts: seq<Action>)
    requires w.At(n).proc == Querying
    ensures Solo(w, n, acts, Elect(SiteOf(w, n), script).site)
    ensures Played(acts, n, script)
  {
    var s := SiteOf(w, n);
    var query := QueryAct(n, script.query);
    ViewsAfter(w, query);
    var w1 := Step(w, query);
    if w1.At(n).proc == Idle {
      acts := [query];
      SoloOne(w, n, query);
    } else if w1.At(n).proc == Electing(1) {
      var rest := BecomePrimaryIsRun(w1, n, 1, script);
      acts := [query] + rest;
      SoloCons(w, n, query, rest, Elect(s, script).site);
    } else {
      var rest := CompeteIsRun(w1, n, script);
      acts := [query] + rest;
      SoloCons(w, n, query, rest, Elect(s, script).site);
    }
  }

  lemma CompeteIsRun(w: World, n: Node, script: ElectScript) returns (acts: seq<Action>)
    requires w.At(n).proc == Electing(0)
    ensures Solo(w, n, acts, Compete(SiteOf(w, n), script).site)
    ensures Played(acts, n, script)
  {
    var attach := ElectAct(n, script.call(ElAttach));
    ViewsAfter(w, attach);
    if MoveAt(w, attach).proc == Idle {
      acts := [attach];
      SoloOne(w, n, attach);
    } else {
      var rest := BecomePrimaryIsRun(Step(w, attach), n, 1, script);
      acts := [attach] + rest;
      SoloCons(w, n, attach, rest, Compete(SiteOf(w, n), script).site);
    }
  }
}
