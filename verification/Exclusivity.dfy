/** Who may have the shared disk mounted, over every run of both daemons.

    Automatic failover, a startup election, and a switchover promotion whose holder query failed all
    attach with force, so the disk can be pulled from under a node that still uses it. The main theorems
    say that this is the only way exclusivity is ever lost: it holds in every state of a run if and only
    if no action of the run takes the disk from a node in that situation. */
module Exclusivity {
  import opened Basics
  import opened Models
  import opened Calls
  import opened Protocol

  /** A mounted filesystem belongs to the node the disk is attached to. */
  ghost predicate MountHeld(w: World) {
    forall n: Node :: w.At(n).mounted ==> w.holder == Some(n)
  }

  /** The node records the disk as attached read-write. Self-demotion corrects this record only two
      steps after it has detached the disk, so that window does not count as a claim. */
  predicate Claims(local: NodeState, proc: Proc) {
    local.diskState == AttachedRw && !(proc.SelfDemoting? && proc.pc >= 5)
  }

  ghost predicate ClaimHeld(w: World) {
    forall n: Node :: Claims(w.At(n).local, w.At(n).proc) ==> w.holder == Some(n)
  }

  /** The call that an action makes takes the disk from the other node: a fence that finds it there, an attach of a
      failover or of an election, or the attach of a promotion whose own query for the holder failed. */
  predicate Takes(w: World, act: Action) {
    var proc := w.At(act.n).proc;
    && w.holder == Some(act.n.Peer())
    && match act
       case FailAct(_, o) => o.effect && (proc == FailingOver(3) || (proc == FailingOver(1) && !o.blind))
       case ElectAct(_, o) => o.effect && proc == Electing(0)
       case PromoteAct(_, unchecked, o) => o.effect && unchecked && proc == Promoting(0)
       case _ => false
  }

  predicate TakesMounted(w: World, act: Action) {
    Takes(w, act) && w.At(act.n.Peer()).mounted
  }

  predicate TakesInUse(w: World, act: Action) {
    var p := w.At(act.n.Peer());
    Takes(w, act) && (p.mounted || Claims(p.local, p.proc))
  }

  /** These calls, and no others, move the disk away from the other node. */
  lemma TakesExactly(w: World, act: Action)
    requires Enabled(w, act)
    ensures Takes(w, act) <==> w.holder == Some(act.n.Peer()) && Step(w, act).holder != w.holder
  {
    hide DemoteMove, PromoteMove, SelfMove, FailMove, ElectMove;
    var s, proc := SiteOf(w, act.n), w.At(act.n).proc;
    if w.holder == Some(act.n.Peer()) {
      match act
      case DemoteAct(_, o) => DemoteKeepsPeerDisk(s, proc.pc, o);
      case PromoteAct(_, unchecked, o) => PromoteTakesPeerDisk(s, proc.pc, unchecked, o);
      case SelfAct(_, o) => SelfKeepsPeerDisk(s, proc.pc, o);
      case FailAct(_, o) => FailTakesPeerDisk(s, proc.pc, o);
      case ElectAct(_, o) => ElectTakesPeerDisk(s, proc.pc, o);
      case _ =>
    }
  }

  lemma DemoteKeepsPeerDisk(s: Site, pc: nat, o: Outcome)
    requires s.holder == Some(s.self.Peer())
    ensures DemoteMove(s, pc, o).site.holder == s.holder
  {}

  lemma PromoteTakesPeerDisk(s: Site, pc: nat, unchecked: bool, o: Outcome)
    requires s.holder == Some(s.self.Peer())
    ensures PromoteMove(s, pc, unchecked, o).site.holder != s.holder <==> pc == 0 && unchecked && o.effect
  {}

  lemma SelfKeepsPeerDisk(s: Site, pc: nat, o: Outcome)
    requires s.holder == Some(s.self.Peer())
    ensures SelfMove(s, pc, o).site.holder == s.holder
  {}

  lemma FailTakesPeerDisk(s: Site, pc: nat, o: Outcome)
    requires s.holder == Some(s.self.Peer())
    ensures FailMove(s, pc, o).site.holder != s.holder <==> o.effect && (pc == 3 || (pc == 1 && !o.blind))
  {}

  lemma ElectTakesPeerDisk(s: Site, pc: nat, o: Outcome)
    requires s.holder == Some(s.self.Peer())
    ensures ElectMove(s, pc, o).site.holder != s.holder <==> pc == 0 && o.effect
  {}

  /* ---------------- what is asked of the environment ---------------- */

  /** An unmount that returns has unmounted, and one done to undo or to self-demote succeeds;
      a mount that raises during a switchover promotion has mounted nothing. */
  predicate UnmountContract(w: World, act: Action) {
    var proc := w.At(act.n).proc;
    match act
    case DemoteAct(_, o) => proc == Demoting(3) && o.reply == Returned ==> o.effect
    case PromoteAct(_, _, o) => proc == Promoting(1) && o.reply != Returned ==> !o.effect
    case UndoAct(_, o) => proc == Undoing(2) ==> o.effect
    case SelfAct(_, o) => proc == SelfDemoting(3) ==> o.effect
    case _ => true
  }

  /** An attach or mount that returns took effect, and a detach that raises did not. */
  predicate DiskContract(w: World, act: Action) {
    var proc := w.At(act.n).proc;
    && UnmountContract(w, act)
    && match act
       case DemoteAct(_, o) => proc == Demoting(4) && o.reply != Returned ==> !o.effect
       case PromoteAct(_, _, o) => proc == Promoting(0) && o.reply == Returned ==> o.effect
       case UndoAct(_, o) => proc == Undoing(1) && o.reply != Returned ==> !o.effect
       case FailAct(_, o) => proc == FailingOver(3) && o.reply == Returned ==> o.effect
       case ElectAct(_, o) => proc == Electing(1) && o.reply == Returned ==> o.effect
       case _ => true
  }

  ghost predicate Obeys(w: World, acts: seq<Action>, contract: (World, Action) -> bool) {
    forall i :: 0 <= i < |acts| ==> contract(StateAt(w, acts, i), acts[i])
  }

  predicate AllIdle(w: World) {
    w.a.proc == Idle && w.b.proc == Idle
  }

  /* ---------------- the mounted filesystem ---------------- */

  /** What a node keeps about its own mount: it holds the disk while mounted, and nothing is mounted once
      a sequence that gives the disk up is past its unmount. */
  predicate OwnMount(s: Site, proc: Proc) {
    && (s.mounted ==> s.holder == Some(s.self))
    && (proc.Demoting? && proc.pc >= 4 ==> !s.mounted)
    && (proc == Undoing(1) ==> !s.mounted)
    && (proc.SelfDemoting? && proc.pc >= 4 ==> !s.mounted)
  }

  ghost predicate MountInv(w: World) {
    forall n: Node :: OwnMount(SiteOf(w, n), w.At(n).proc)
  }

  lemma OwnMountMove(w: World, act: Action)
    requires Enabled(w, act) && UnmountContract(w, act)
    requires OwnMount(SiteOf(w, act.n), w.At(act.n).proc)
    ensures OwnMount(MoveAt(w, act).site, MoveAt(w, act).proc)
  {
    hide DemoteMove, PromoteMove, SelfMove, FailMove, ElectMove;
    var s, proc := SiteOf(w, act.n), w.At(act.n).proc;
    match act
    case DemoteAct(_, o) => OwnMountDemote(s, proc.pc, o);
    case PromoteAct(_, unchecked, o) => OwnMountPromote(s, proc.pc, unchecked, o);
    case UndoAct(_, o) => OwnMountUndo(s, proc.left, o);
    case SelfAct(_, o) => OwnMountSelf(s, proc.pc, o);
    case FailAct(_, o) => OwnMountFail(s, proc.pc, o);
    case ElectAct(_, o) => OwnMountElect(s, proc.pc, o);
    case _ =>
  }

  lemma OwnMountDemote(s: Site, pc: nat, o: Outcome)
    requires pc < DEMOTE_STEPS && OwnMount(s, Demoting(pc)) && (pc == 3 && o.reply == Returned ==> o.effect)
    ensures var m := DemoteMove(s, pc, o); OwnMount(m.site, m.proc)
  {}

  lemma OwnMountPromote(s: Site, pc: nat, unchecked: bool, o: Outcome)
    requires pc < PROMOTE_STEPS && OwnMount(s, Promoting(pc)) && (pc == 1 && o.reply != Returned ==> !o.effect)
    ensures var m := PromoteMove(s, pc, unchecked, o); OwnMount(m.site, m.proc)
  {}

  lemma OwnMountUndo(s: Site, left: nat, o: Outcome)
    requires left <= 4 && OwnMount(s, Undoing(left)) && (left == 2 ==> o.effect)
    ensures var m := UndoMove(s, left, o); OwnMount(m.site, m.proc)
  {}

  lemma OwnMountSelf(s: Site, pc: nat, o: Outcome)
    requires pc < SELF_STEPS && OwnMount(s, SelfDemoting(pc)) && (pc == 3 ==> o.effect)
    ensures var m := SelfMove(s, pc, o); OwnMount(m.site, m.proc)
  {}

  lemma OwnMountFail(s: Site, pc: nat, o: Outcome)
    requires pc < FAIL_STEPS && OwnMount(s, FailingOver(pc))
    ensures var m := FailMove(s, pc, o); OwnMount(m.site, m.proc)
  {}

  lemma OwnMountElect(s: Site, pc: nat, o: Outcome)
    requires pc < ELECT_STEPS && OwnMount(s, Electing(pc))
    ensures var m := ElectMove(s, pc, o); OwnMount(m.site, m.proc)
  {}

  lemma MountInvStep(w: World, act: Action)
    requires Enabled(w, act) && MountInv(w) && UnmountContract(w, act) && !TakesMounted(w, act)
    ensures MountInv(Step(w, act))
  {
    var n := act.n;
    ViewsAfter(w, act);
    TakesExactly(w, act);
    OwnMountMove(w, act);
    assert OwnMount(SiteOf(w, n.Peer()), w.At(n.Peer()).proc);
    forall m: Node ensures OwnMount(SiteOf(Step(w, act), m), Step(w, act).At(m).proc) {
      assert m == n || m == n.Peer();
    }
  }

  lemma {:induction false} MountInvAlong(w: World, acts: seq<Action>, i: nat)
    requires Run(w, acts) && AllIdle(w) && MountHeld(w) && Obeys(w, acts, UnmountContract) && i <= |acts|
    requires forall j :: 0 <= j < i ==> !TakesMounted(StateAt(w, acts, j), acts[j])
    ensures MountInv(StateAt(w, acts, i))
  {
    hide MoveOf;
    if i == 0 {
      StateFirst(w, acts);
      forall n: Node ensures OwnMount(SiteOf(w, n), w.At(n).proc) {
        assert w.At(n).mounted ==> w.holder == Some(n);
      }
    } else {
      MountInvAlong(w, acts, i - 1);
      MountInvStep(StateAt(w, acts, i - 1), acts[i - 1]);
      StateNext(w, acts, i - 1);
    }
  }

  /** Taking the disk from a node that has it mounted leaves that node mounted without the disk. */
  lemma TakingMountedBreaks(w: World, act: Action)
    requires Enabled(w, act) && TakesMounted(w, act)
    ensures !MountHeld(Step(w, act))
  {
    ViewsAfter(w, act);
    TakesExactly(w, act);
    assert Step(w, act).At(act.n.Peer()).mounted;
  }

  lemma MountInvHolds(w: World)
    requires MountInv(w)
    ensures MountHeld(w)
  {
    forall n: Node ensures w.At(n).mounted ==> w.holder == Some(n) {
      assert OwnMount(SiteOf(w, n), w.At(n).proc);
    }
  }

  /** In every run from idle nodes, of any length, with requests lost or arbitrarily late and with every
      other call free to fail or to lie: the mount is exclusive throughout if and only if no action takes
      the disk from a node that has it mounted. */
  lemma MountExclusiveExactly(w: World, acts: seq<Action>)
    requires Run(w, acts) && AllIdle(w) && MountHeld(w) && Obeys(w, acts, UnmountContract)
    ensures (forall i :: 0 <= i <= |acts| ==> MountHeld(StateAt(w, acts, i)))
       <==> (forall i :: 0 <= i < |acts| ==> !TakesMounted(StateAt(w, acts, i), acts[i]))
  {
    if forall i :: 0 <= i < |acts| ==> !TakesMounted(StateAt(w, acts, i), acts[i]) {
      forall i | 0 <= i <= |acts| ensures MountHeld(StateAt(w, acts, i)) {
        MountInvAlong(w, acts, i);
        MountInvHolds(StateAt(w, acts, i));
      }
    } else {
      var i :| 0 <= i < |acts| && TakesMounted(StateAt(w, acts, i), acts[i]);
      StateNext(w, acts, i);
      TakingMountedBreaks(StateAt(w, acts, i), acts[i]);
      assert !MountHeld(StateAt(w, acts, i + 1));
    }
  }

  /** Never two mounted nodes. */
  lemma MountedOnce(w: World)
    requires MountHeld(w)
    ensures !(w.a.mounted && w.b.mounted)
  {
    assert w.At(NodeA).mounted ==> w.holder == Some(NodeA);
    assert w.At(NodeB).mounted ==> w.holder == Some(NodeB);
  }

  /* ---------------- the recorded attachment ---------------- */

  predicate OwnClaim(s: Site, proc: Proc) {
    && OwnMount(s, proc)
    && (Claims(s.local, proc) ==> s.holder == Some(s.self))
    && (proc.Electing? && proc.pc >= 2 ==> s.mounted)
    && (proc == SelfDemoting(7) ==> s.local.diskState != AttachedRw)
  }

  ghost predicate ClaimInv(w: World) {
    forall n: Node :: OwnClaim(SiteOf(w, n), w.At(n).proc)
  }

  lemma OwnClaimMove(w: World, act: Action)
    requires Enabled(w, act) && DiskContract(w, act)
    requires OwnClaim(SiteOf(w, act.n), w.At(act.n).proc)
    ensures OwnClaim(MoveAt(w, act).site, MoveAt(w, act).proc)
  {
    hide DemoteCall, PromoteCall, UndoCall, SelfCall, FailCall, ElectCall;
    var s, proc := SiteOf(w, act.n), w.At(act.n).proc;
    OwnMountMove(w, act);
    match act
    case DemoteAct(_, o) => OwnClaimDemote(s, proc.pc, o);
    case PromoteAct(_, unchecked, o) => OwnClaimPromote(s, proc.pc, unchecked, o);
    case UndoAct(_, o) => OwnClaimUndo(s, proc.left, o);
    case SelfAct(_, o) => OwnClaimSelf(s, proc.pc, o);
    case FailAct(_, o) => OwnClaimFail(s, proc.pc, o);
    case ElectAct(_, o) => OwnClaimElect(s, proc.pc, o);
    case _ =>
  }

  lemma OwnClaimDemote(s: Site, pc: nat, o: Outcome)
    requires pc < DEMOTE_STEPS && OwnClaim(s, Demoting(pc)) && (pc == 4 && o.reply != Returned ==> !o.effect)
    ensures var m := DemoteMove(s, pc, o); Claims(m.site.local, m.proc) ==> m.site.holder == Some(m.site.self)
  {}

  lemma OwnClaimPromote(s: Site, pc: nat, unchecked: bool, o: Outcome)
    requires pc < PROMOTE_STEPS && OwnClaim(s, Promoting(pc)) && (pc == 0 && o.reply == Returned ==> o.effect)
    ensures var m := PromoteMove(s, pc, unchecked, o);
            Claims(m.site.local, m.proc) ==> m.site.holder == Some(m.site.self)
  {}

  lemma OwnClaimUndo(s: Site, left: nat, o: Outcome)
    requires left <= 4 && OwnClaim(s, Undoing(left)) && (left == 1 && o.reply != Returned ==> !o.effect)
    ensures var m := UndoMove(s, left, o); Claims(m.site.local, m.proc) ==> m.site.holder == Some(m.site.self)
  {}

  lemma OwnClaimSelf(s: Site, pc: nat, o: Outcome)
    requires pc < SELF_STEPS && OwnClaim(s, SelfDemoting(pc))
    ensures var m := SelfMove(s, pc, o);
            && (Claims(m.site.local, m.proc) ==> m.site.holder == Some(m.site.self))
            && (m.proc == SelfDemoting(7) ==> m.site.local.diskState != AttachedRw)
  {}

  lemma OwnClaimFail(s: Site, pc: nat, o: Outcome)
    requires pc < FAIL_STEPS && OwnClaim(s, FailingOver(pc)) && (pc == 3 && o.reply == Returned ==> o.effect)
    ensures var m := FailMove(s, pc, o); Claims(m.site.local, m.proc) ==> m.site.holder == Some(m.site.self)
  {
    hide FailCall, OwnMount;
    FailCallClaim(s, FailStepAt(pc), o);
  }

  lemma FailCallClaim(s: Site, step: FailStep, o: Outcome)
    requires s.local.diskState == AttachedRw ==> s.holder == Some(s.self)
    requires step == FoAttach && o.reply == Returned ==> o.effect
    ensures var t := FailCall(s, step, o).site; t.local.diskState == AttachedRw ==> t.holder == Some(t.self)
  {}

  lemma OwnClaimElect(s: Site, pc: nat, o: Outcome)
    requires pc < ELECT_STEPS && OwnClaim(s, Electing(pc)) && (pc == 1 && o.reply == Returned ==> o.effect)
    ensures var m := ElectMove(s, pc, o);
            && (Claims(m.site.local, m.proc) ==> m.site.holder == Some(m.site.self))
            && (m.proc.Electing? && m.proc.pc >= 2 ==> m.site.mounted)
  {}

  lemma ClaimInvStep(w: World, act: Action)
    requires Enabled(w, act) && ClaimInv(w) && DiskContract(w, act) && !TakesInUse(w, act)
    ensures ClaimInv(Step(w, act))
  {
    var n := act.n;
    ViewsAfter(w, act);
    TakesExactly(w, act);
    OwnClaimMove(w, act);
    assert OwnClaim(SiteOf(w, n.Peer()), w.At(n.Peer()).proc);
    forall m: Node ensures OwnClaim(SiteOf(Step(w, act), m), Step(w, act).At(m).proc) {
      assert m == n || m == n.Peer();
    }
  }

  lemma {:induction false} ClaimInvAlong(w: World, acts: seq<Action>, i: nat)
    requires Run(w, acts) && AllIdle(w) && MountHeld(w) && ClaimHeld(w) && Obeys(w, acts, DiskContract) && i <= |acts|
    requires forall j :: 0 <= j < i ==> !TakesInUse(StateAt(w, acts, j), acts[j])
    ensures ClaimInv(StateAt(w, acts, i))
  {
    hide MoveOf;
    if i == 0 {
      StateFirst(w, acts);
      forall n: Node ensures OwnClaim(SiteOf(w, n), w.At(n).proc) {
        assert w.At(n).mounted ==> w.holder == Some(n);
        assert Claims(w.At(n).local, w.At(n).proc) ==> w.holder == Some(n);
      }
    } else {
      ClaimInvAlong(w, acts, i - 1);
      ClaimInvStep(StateAt(w, acts, i - 1), acts[i - 1]);
      StateNext(w, acts, i - 1);
    }
  }

  lemma ClaimInvHolds(w: World)
    requires ClaimInv(w)
    ensures MountHeld(w) && ClaimHeld(w)
  {
    forall n: Node ensures (w.At(n).mounted || Claims(w.At(n).local, w.At(n).proc)) ==> w.holder == Some(n) {
      assert OwnClaim(SiteOf(w, n), w.At(n).proc);
    }
  }

  /* ---------------- the record to the letter ---------------- */

  /** Whatever a node is doing, its record says attached read-write only while it holds the disk. */
  ghost predicate RecordHeld(w: World) {
    forall n: Node :: w.At(n).local.diskState == AttachedRw ==> w.holder == Some(n)
  }

  predicate TakesRecorded(w: World, act: Action) {
    var p := w.At(act.n.Peer());
    Takes(w, act) && (p.mounted || p.local.diskState == AttachedRw)
  }

  /** The detach of a self-demotion takes effect while the record says attached; it is corrected two steps later. */
  predicate DetachesUnrecorded(w: World, act: Action) {
    var h := w.At(act.n);
    && act.SelfAct? && h.proc == SelfDemoting(4) && h.local.diskState == AttachedRw
    && w.holder == Some(act.n) && act.o.effect && !act.o.blind
  }

  predicate OwnRecord(s: Site, proc: Proc) {
    OwnClaim(s, proc) && (s.local.diskState == AttachedRw ==> s.holder == Some(s.self))
  }

  ghost predicate RecordInv(w: World) {
    forall n: Node :: OwnRecord(SiteOf(w, n), w.At(n).proc)
  }

  lemma OwnRecordMove(w: World, act: Action)
    requires Enabled(w, act) && DiskContract(w, act) && !DetachesUnrecorded(w, act)
    requires OwnRecord(SiteOf(w, act.n), w.At(act.n).proc)
    ensures OwnRecord(MoveAt(w, act).site, MoveAt(w, act).proc)
  {
    hide DemoteMove, PromoteMove, FailMove, ElectMove, UndoMove;
    OwnClaimMove(w, act);
    match act
    case DemoteAct(_, o) => DemoteNotSelf(SiteOf(w, act.n), w.At(act.n).proc.pc, o);
    case PromoteAct(_, unchecked, o) => PromoteNotSelf(SiteOf(w, act.n), w.At(act.n).proc.pc, unchecked, o);
    case UndoAct(_, o) => UndoNotSelf(SiteOf(w, act.n), w.At(act.n).proc.left, o);
    case FailAct(_, o) => FailNotSelf(SiteOf(w, act.n), w.At(act.n).proc.pc, o);
    case ElectAct(_, o) => ElectNotSelf(SiteOf(w, act.n), w.At(act.n).proc.pc, o);
    case _ =>
  }

  lemma DemoteNotSelf(s: Site, pc: nat, o: Outcome)
    ensures !DemoteMove(s, pc, o).proc.SelfDemoting?
  {}

  lemma PromoteNotSelf(s: Site, pc: nat, unchecked: bool, o: Outcome)
    ensures !PromoteMove(s, pc, unchecked, o).proc.SelfDemoting?
  {}

  lemma UndoNotSelf(s: Site, left: nat, o: Outcome)
    ensures !UndoMove(s, left, o).proc.SelfDemoting?
  {}

  lemma FailNotSelf(s: Site, pc: nat, o: Outcome)
    ensures !FailMove(s, pc, o).proc.SelfDemoting?
  {}

  lemma ElectNotSelf(s: Site, pc: nat, o: Outcome)
    ensures !ElectMove(s, pc, o).proc.SelfDemoting?
  {}

  lemma RecordInvStep(w: World, act: Action)
    requires Enabled(w, act) && RecordInv(w) && DiskContract(w, act)
    requires !TakesRecorded(w, act) && !DetachesUnrecorded(w, act)
    ensures RecordInv(Step(w, act))
  {
    hide MoveOf, DiskContract;
    var n := act.n;
    ViewsAfter(w, act);
    TakesExactly(w, act);
    OwnRecordMove(w, act);
    assert OwnRecord(SiteOf(w, n.Peer()), w.At(n.Peer()).proc);
    forall m: Node ensures OwnRecord(SiteOf(Step(w, act), m), Step(w, act).At(m).proc) {
      assert m == n || m == n.Peer();
    }
  }

  lemma {:induction false} RecordInvAlong(w: World, acts: seq<Action>, i: nat)
    requires Run(w, acts) && AllIdle(w) && MountHeld(w) && RecordHeld(w) && Obeys(w, acts, DiskContract) && i <= |acts|
    requires forall j :: 0 <= j < i ==>
               !TakesRecorded(StateAt(w, acts, j), acts[j]) && !DetachesUnrecorded(StateAt(w, acts, j), acts[j])
    ensures RecordInv(StateAt(w, acts, i))
  {
    hide MoveOf;
    if i == 0 {
      StateFirst(w, acts);
      forall n: Node ensures OwnRecord(SiteOf(w, n), w.At(n).proc) {
        assert w.At(n).mounted ==> w.holder == Some(n);
        assert w.At(n).local.diskState == AttachedRw ==> w.holder == Some(n);
      }
    } else {
      RecordInvAlong(w, acts, i - 1);
      RecordInvStep(StateAt(w, acts, i - 1), acts[i - 1]);
      StateNext(w, acts, i - 1);
    }
  }

  lemma RecordInvHolds(w: World)
    requires RecordInv(w)
    ensures MountHeld(w) && RecordHeld(w)
  {
    forall n: Node ensures (w.At(n).mounted || w.At(n).local.diskState == AttachedRw) ==> w.holder == Some(n) {
      assert OwnRecord(SiteOf(w, n), w.At(n).proc);
    }
  }

  lemma RecordBreaks(w: World, act: Action)
    requires Enabled(w, act) && (TakesRecorded(w, act) || DetachesUnrecorded(w, act))
    ensures !(MountHeld(Step(w, act)) && RecordHeld(Step(w, act)))
  {
    ViewsAfter(w, act);
    TakesExactly(w, act);
    var v := Step(w, act);
    if TakesRecorded(w, act) {
      assert v.At(act.n.Peer()).mounted || v.At(act.n.Peer()).local.diskState == AttachedRw;
    } else {
      assert v.At(act.n).local.diskState == AttachedRw && v.holder == None;
    }
  }

  /** To the letter, over every run of all engines: mount and record belong to the holder throughout if and only if no
      action takes the disk from a node that has it mounted or recorded, and no self-demotion detaches it while its
      record still says attached. */
  lemma RecordExclusiveExactly(w: World, acts: seq<Action>)
    requires Run(w, acts) && AllIdle(w) && MountHeld(w) && RecordHeld(w) && Obeys(w, acts, DiskContract)
    ensures (forall i :: 0 <= i <= |acts| ==> MountHeld(StateAt(w, acts, i)) && RecordHeld(StateAt(w, acts, i)))
       <==> (forall i :: 0 <= i < |acts| ==>
               !TakesRecorded(StateAt(w, acts, i), acts[i]) && !DetachesUnrecorded(StateAt(w, acts, i), acts[i]))
  {
    hide DiskContract, TakesRecorded, DetachesUnrecorded;
    if forall i :: 0 <= i < |acts| ==>
         !TakesRecorded(StateAt(w, acts, i), acts[i]) && !DetachesUnrecorded(StateAt(w, acts, i), acts[i]) {
      forall i | 0 <= i <= |acts| ensures MountHeld(StateAt(w, acts, i)) && RecordHeld(StateAt(w, acts, i)) {
        RecordInvAlong(w, acts, i);
        RecordInvHolds(StateAt(w, acts, i));
      }
    } else {
      var i :| 0 <= i < |acts|
               && (TakesRecorded(StateAt(w, acts, i), acts[i]) || DetachesUnrecorded(StateAt(w, acts, i), acts[i]));
      StateNext(w, acts, i);
      RecordBreaks(StateAt(w, acts, i), acts[i]);
    }
  }

  /* ---------------- planned switchovers and self-demotions only ---------------- */

  /** No automatic failover, no daemon start, and every holder query of a promotion answers truthfully. */
  predicate Planned(acts: seq<Action>) {
    forall act <- acts :: !act.FailStart? && !act.Boot? && (act.PromoteAct? ==> !act.unchecked)
  }

  predicate NoForce(proc: Proc) {
    !proc.FailingOver? && !proc.Querying? && !proc.Electing? && !proc.ElectUndoing?
  }

  lemma {:induction false} PlannedNeverForces(w: World, acts: seq<Action>, i: nat, n: Node)
    requires Run(w, acts) && AllIdle(w) && Planned(acts) && i <= |acts|
    ensures NoForce(StateAt(w, acts, i).At(n).proc)
  {
    if i == 0 {
      StateFirst(w, acts);
    } else {
      PlannedNeverForces(w, acts, i - 1, n);
      StateNext(w, acts, i - 1);
      ViewsAfter(StateAt(w, acts, i - 1), acts[i - 1]);
      assert acts[i - 1] in acts;
      PlannedStep(StateAt(w, acts, i - 1), acts[i - 1], n);
    }
  }

  lemma PlannedStep(w: World, act: Action, n: Node)
    requires Enabled(w, act) && NoForce(w.At(n).proc) && !act.FailStart? && !act.Boot?
    ensures NoForce(Step(w, act).At(n).proc)
  {
    hide DemoteCall, PromoteCall, SelfCall, FailCall, ElectCall, UndoCall, Unmount, StopPostgres;
    ViewsAfter(w, act);
  }

  lemma PlannedNeverTakes(w: World, acts: seq<Action>, j: nat)
    requires Run(w, acts) && AllIdle(w) && Planned(acts) && j < |acts|
    ensures !Takes(StateAt(w, acts, j), acts[j])
  {
    PlannedNeverForces(w, acts, j, acts[j].n);
    assert acts[j] in acts;
  }

  /** Switchover exclusivity. Over any number of switchovers in either direction and any self-demotions,
      with requests lost or delivered after the roles have swapped back, no action ever takes the disk from
      the node holding it; a mounted or recorded attachment always belongs to the holder; and so at most one
      node is mounted, and at most one is a PRIMARY claiming the disk. */
  lemma SwitchoverExclusivity(w: World, acts: seq<Action>, i: nat)
    requires Run(w, acts) && AllIdle(w) && MountHeld(w) && ClaimHeld(w) && Obeys(w, acts, DiskContract)
    requires Planned(acts) && i <= |acts|
    ensures i < |acts| ==> !Takes(StateAt(w, acts, i), acts[i])
    ensures var v := StateAt(w, acts, i);
            && MountHeld(v) && ClaimHeld(v)
            && !(v.a.mounted && v.b.mounted)
            && !(Claims(v.a.local, v.a.proc) && Claims(v.b.local, v.b.proc))
  {
    hide MoveOf;
    forall j | 0 <= j < |acts| ensures !Takes(StateAt(w, acts, j), acts[j]) {
      PlannedNeverTakes(w, acts, j);
    }
    ClaimInvAlong(w, acts, i);
    var v := StateAt(w, acts, i);
    ClaimInvHolds(v);
    MountedOnce(v);
    assert Claims(v.At(NodeA).local, v.At(NodeA).proc) ==> v.holder == Some(NodeA);
    assert Claims(v.At(NodeB).local, v.At(NodeB).proc) ==> v.holder == Some(NodeB);
  }

  /** To the letter, planned runs with self-demotions keep the record exactly when no self-demotion's detach takes
      effect while the record still says attached. */
  lemma SwitchoverRecordsExactly(w: World, acts: seq<Action>)
    requires Run(w, acts) && AllIdle(w) && MountHeld(w) && RecordHeld(w) && Obeys(w, acts, DiskContract)
             && Planned(acts)
    ensures (forall i :: 0 <= i <= |acts| ==> RecordHeld(StateAt(w, acts, i)))
       <==> (forall i :: 0 <= i < |acts| ==> !DetachesUnrecorded(StateAt(w, acts, i), acts[i]))
  {
    hide DiskContract, RecordHeld, MountHeld, DetachesUnrecorded, Planned;
    forall j | 0 <= j < |acts| ensures !TakesRecorded(StateAt(w, acts, j), acts[j]) {
      PlannedNeverTakes(w, acts, j);
    }
    RecordExclusiveExactly(w, acts);
    forall i | 0 <= i <= |acts| ensures MountHeld(StateAt(w, acts, i)) {
      PlannedMounts(w, acts, i);
    }
  }

  lemma PlannedMounts(w: World, acts: seq<Action>, i: nat)
    requires Run(w, acts) && AllIdle(w) && MountHeld(w) && RecordHeld(w) && Obeys(w, acts, DiskContract)
    requires Planned(acts) && i <= |acts|
    ensures MountHeld(StateAt(w, acts, i))
  {
    hide MoveOf, DiskContract;
    forall n: Node ensures Claims(w.At(n).local, w.At(n).proc) ==> w.holder == Some(n) {
      assert w.At(n).local.diskState == AttachedRw ==> w.holder == Some(n);
    }
    SwitchoverExclusivity(w, acts, i);
  }

  /** A node self-demotes only after a SelfStart. */
  lemma {:induction false} NoSelfDemotion(w: World, acts: seq<Action>, i: nat, n: Node)
    requires Run(w, acts) && AllIdle(w) && i <= |acts| && forall act <- acts :: !act.SelfStart?
    ensures !StateAt(w, acts, i).At(n).proc.SelfDemoting?
  {
    hide MoveOf;
    if i == 0 {
      StateFirst(w, acts);
    } else {
      NoSelfDemotion(w, acts, i - 1, n);
      StateNext(w, acts, i - 1);
      assert acts[i - 1] in acts;
      NoSelfDemotionStep(StateAt(w, acts, i - 1), acts[i - 1], n);
    }
  }

  lemma NoSelfDemotionStep(w: World, act: Action, n: Node)
    requires Enabled(w, act) && !w.At(n).proc.SelfDemoting? && !act.SelfStart?
    ensures !Step(w, act).At(n).proc.SelfDemoting?
  {
    hide DemoteCall, PromoteCall, SelfCall, FailCall, ElectCall, UndoCall, Unmount, StopPostgres;
    ViewsAfter(w, act);
  }

  /** The record to the letter, over any number of switchovers without self-demotions: attached read-write means holding
      the disk in every state, so never two nodes that are PRIMARY and ATTACHED_RW. */
  lemma SwitchoverRecords(w: World, acts: seq<Action>, i: nat)
    requires Run(w, acts) && AllIdle(w) && MountHeld(w) && RecordHeld(w) && Obeys(w, acts, DiskContract)
    requires Planned(acts) && (forall act <- acts :: !act.SelfStart?) && i <= |acts|
    ensures var v := StateAt(w, acts, i);
            && MountHeld(v) && RecordHeld(v)
            && !(v.a.local.diskState == AttachedRw && v.b.local.diskState == AttachedRw)
  {
    hide MoveOf, DiskContract;
    forall j | 0 <= j < i
      ensures !TakesRecorded(StateAt(w, acts, j), acts[j]) && !DetachesUnrecorded(StateAt(w, acts, j), acts[j])
    {
      PlannedNeverTakes(w, acts, j);
      NoSelfDemotion(w, acts, j, acts[j].n);
    }
    RecordInvAlong(w, acts, i);
    var v := StateAt(w, acts, i);
    RecordInvHolds(v);
    assert v.At(NodeA).local.diskState == AttachedRw ==> v.holder == Some(NodeA);
    assert v.At(NodeB).local.diskState == AttachedRw ==> v.holder == Some(NodeB);
  }
}
