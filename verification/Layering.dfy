/** PostgreSQL runs only on a mounted filesystem, at every intermediate state of every engine sequence. */
module Layering {
  import opened Basics
  import opened Calls
  import opened Protocol
  import opened Exclusivity

  ghost predicate Layered(w: World) {
    forall n: Node :: w.At(n).running ==> w.At(n).mounted
  }

  /** Mounting: a mount that returns has mounted, and no server runs on a stale mount. Starting: a promotion
      whose start raises leaves no server behind. Stopping: a stop that returns, and every stop done to undo or
      to self-demote, took effect. */
  predicate ServerContract(w: World, act: Action) {
    var h := w.At(act.n);
    match act
    case DemoteAct(_, o) => h.proc == Demoting(2) && o.reply == Returned ==> o.effect
    case PromoteAct(_, _, o) =>
      && (h.proc == Promoting(1) ==> MountHonest(h, o))
      && (h.proc == Promoting(2) && o.reply != Returned ==> !o.effect && !h.running)
    case UndoAct(_, o) => h.proc == Undoing(3) ==> o.effect
    case SelfAct(_, o) => h.proc == SelfDemoting(1) ==> o.effect
    case FailAct(_, o) => h.proc == FailingOver(4) ==> MountHonest(h, o)
    case ElectAct(_, o) => h.proc == Electing(1) ==> MountHonest(h, o)
    case ElectUndoAct(_, o) => h.proc == ElectUndoing(0) ==> o.effect
    case _ => true
  }

  predicate MountHonest(h: Host, o: Outcome) {
    (o.reply == Returned ==> o.effect) && (o.blind ==> !h.running)
  }

  predicate OwnLayer(mounted: bool, running: bool, proc: Proc) {
    && (running ==> mounted)
    && (proc.Promoting? && proc.pc >= 2 ==> mounted)
    && (proc.FailingOver? && proc.pc >= 5 ==> mounted)
    && (proc.Electing? && proc.pc >= 2 ==> mounted)
    && (proc.Demoting? && proc.pc >= 3 ==> !running)
    && (proc.SelfDemoting? && proc.pc >= 2 ==> !running)
    && (proc == Undoing(2) || proc == ElectUndoing(1) ==> !running)
  }

  predicate HostLayer(h: Host) {
    OwnLayer(h.mounted, h.running, h.proc)
  }

  predicate MoveLayer(m: Move) {
    OwnLayer(m.site.mounted, m.site.running, m.proc)
  }

  ghost predicate LayerInv(w: World) {
    forall n: Node :: HostLayer(w.At(n))
  }

  lemma OwnLayerMove(w: World, act: Action)
    requires Enabled(w, act) && ServerContract(w, act) && HostLayer(w.At(act.n))
    ensures MoveLayer(MoveAt(w, act))
  {
    hide DemoteMove, PromoteMove, SelfMove, FailMove, ElectMove;
    var s, proc := SiteOf(w, act.n), w.At(act.n).proc;
    match act
    case DemoteAct(_, o) => LayerDemote(s, proc.pc, o);
    case PromoteAct(_, unchecked, o) => LayerPromote(w, act);
    case UndoAct(_, o) => LayerUndo(s, proc.left, o);
    case SelfAct(_, o) => LayerSelf(s, proc.pc, o);
    case FailAct(_, o) => LayerFail(w, act);
    case ElectAct(_, o) => LayerElect(w, act);
    case _ =>
  }

  lemma LayerDemote(s: Site, pc: nat, o: Outcome)
    requires pc < DEMOTE_STEPS && OwnLayer(s.mounted, s.running, Demoting(pc))
    requires pc == 2 && o.reply == Returned ==> o.effect
    ensures MoveLayer(DemoteMove(s, pc, o))
  {}

  lemma LayerPromote(w: World, act: Action)
    requires act.PromoteAct? && Enabled(w, act) && ServerContract(w, act) && HostLayer(w.At(act.n))
    ensures MoveLayer(PromoteMove(SiteOf(w, act.n), w.At(act.n).proc.pc, act.unchecked, act.o))
  {}

  lemma LayerUndo(s: Site, left: nat, o: Outcome)
    requires left <= 4 && OwnLayer(s.mounted, s.running, Undoing(left)) && (left == 3 ==> o.effect)
    ensures MoveLayer(UndoMove(s, left, o))
  {}

  lemma LayerSelf(s: Site, pc: nat, o: Outcome)
    requires pc < SELF_STEPS && OwnLayer(s.mounted, s.running, SelfDemoting(pc)) && (pc == 1 ==> o.effect)
    ensures MoveLayer(SelfMove(s, pc, o))
  {}

  lemma LayerFail(w: World, act: Action)
    requires act.FailAct? && Enabled(w, act) && ServerContract(w, act) && HostLayer(w.At(act.n))
    ensures MoveLayer(FailMove(SiteOf(w, act.n), w.At(act.n).proc.pc, act.o))
  {}

  lemma LayerElect(w: World, act: Action)
    requires act.ElectAct? && Enabled(w, act) && ServerContract(w, act) && HostLayer(w.At(act.n))
    ensures MoveLayer(ElectMove(SiteOf(w, act.n), w.At(act.n).proc.pc, act.o))
  {}

  lemma LayerInvStep(w: World, act: Action)
    requires Enabled(w, act) && LayerInv(w) && ServerContract(w, act)
    ensures LayerInv(Step(w, act))
  {
    ViewsAfter(w, act);
    OwnLayerMove(w, act);
    assert HostLayer(w.At(act.n.Peer()));
    forall m: Node ensures HostLayer(Step(w, act).At(m)) {
      assert m == act.n || m == act.n.Peer();
    }
  }

  lemma {:induction false} LayerInvAlong(w: World, acts: seq<Action>, i: nat)
    requires Run(w, acts) && AllIdle(w) && Layered(w) && Obeys(w, acts, ServerContract) && i <= |acts|
    ensures LayerInv(StateAt(w, acts, i))
  {
    if i == 0 {
      StateFirst(w, acts);
      forall n: Node ensures HostLayer(w.At(n)) {
        assert w.At(n).running ==> w.At(n).mounted;
      }
    } else {
      LayerInvAlong(w, acts, i - 1);
      LayerInvStep(StateAt(w, acts, i - 1), acts[i - 1]);
      StateNext(w, acts, i - 1);
    }
  }

  /** Switchover, its rollback, self-demotion, failover and election, with every failure pattern and even while
      the peer fences: wherever PostgreSQL runs the filesystem is mounted; and as long as nobody has taken the disk
      from a mounted node, the disk is there too. A switchover that reaches DETACH has stopped and unmounted. */
  lemma LayeredThroughout(w: World, acts: seq<Action>, i: nat, n: Node)
    requires Run(w, acts) && AllIdle(w) && Layered(w) && MountHeld(w) && i <= |acts|
    requires Obeys(w, acts, ServerContract) && Obeys(w, acts, UnmountContract)
    ensures var h := StateAt(w, acts, i).At(n);
            && (h.running ==> h.mounted)
            && (h.proc == Demoting(4) ==> !h.running)
    ensures (forall j :: 0 <= j < i ==> !TakesMounted(StateAt(w, acts, j), acts[j])) ==>
            var v := StateAt(w, acts, i);
            && (v.At(n).running ==> v.At(n).mounted && v.holder == Some(n))
            && (v.At(n).proc == Demoting(4) ==> !v.At(n).mounted)
  {
    LayerInvAlong(w, acts, i);
    assert HostLayer(StateAt(w, acts, i).At(n));
    if forall j :: 0 <= j < i ==> !TakesMounted(StateAt(w, acts, j), acts[j]) {
      MountInvAlong(w, acts, i);
      var v := StateAt(w, acts, i);
      assert OwnMount(SiteOf(v, n), v.At(n).proc);
    }
  }
}
