/** Where the guarantees end: runs that meet every other condition and break the one named. */
module Limits {
  import opened Basics
  import opened Models
  import opened Calls
  import opened Protocol
  import opened Switchover
  import opened SwitchoverFacts
  import opened Exclusivity
  import opened VipExclusivity

  /** NodeA serves, and NodeB's failover has got so far. */
  predicate Serving(w: World, b: Proc) {
    w.holder == Some(NodeA) && w.a.mounted && w.b.proc == b
  }

  lemma FailoverStarts(w: World)
    requires Serving(w, Idle) && w.b.local.role == NodeRole.Standby
    ensures Enabled(w, FailStart(NodeB, false)) && DiskContract(w, FailStart(NodeB, false))
    ensures Serving(Step(w, FailStart(NodeB, false)), FailingOver(0))
  {}

  lemma FailoverVerifies(w: World)
    requires Serving(w, FailingOver(0))
    ensures Enabled(w, FailAct(NodeB, DONE)) && DiskContract(w, FailAct(NodeB, DONE))
    ensures Serving(Step(w, FailAct(NodeB, DONE)), FailingOver(1))
  {}

  lemma FailoverFences(w: World)
    requires Serving(w, FailingOver(1))
    ensures Enabled(w, FailAct(NodeB, DONE)) && DiskContract(w, FailAct(NodeB, DONE))
    ensures TakesMounted(w, FailAct(NodeB, DONE)) && !MountHeld(Step(w, FailAct(NodeB, DONE)))
  {
    assert Step(w, FailAct(NodeB, DONE)).At(NodeA).mounted;
  }

  /** Fencing a primary that is still serving: two steps into the failover the disk has been taken from a node that has
      it mounted. */
  lemma FenceOfLivePrimary(w: World) returns (acts: seq<Action>)
    requires w.holder == Some(NodeA) && w.a.mounted
    requires w.b.proc == Idle && w.b.local.role == NodeRole.Standby
    ensures Run(w, acts) && |acts| == 3 && Obeys(w, acts, DiskContract)
    ensures TakesMounted(StateAt(w, acts, 2), acts[2]) && !MountHeld(After(w, acts))
  {
    hide Enabled, Step, DiskContract, TakesMounted, MountHeld;
    var start, act := FailStart(NodeB, false), FailAct(NodeB, DONE);
    FailoverStarts(w);
    var w1 := Step(w, start);
    FailoverVerifies(w1);
    var w2 := Step(w1, act);
    FailoverFences(w2);
    acts := [] + [start] + [act] + [act];
    StateFirst(w, []);
    RunSnoc(w, [], start);
    RunSnoc(w, [] + [start], act);
    RunSnoc(w, [] + [start] + [act], act);
    assert acts[..0] == [] && acts[..1] == [] + [start] && acts[..2] == [] + [start] + [act];
    forall i | 0 <= i < |acts| ensures DiskContract(StateAt(w, acts, i), acts[i]) {
      assert i == 0 || i == 1 || i == 2;
    }
  }

  /** A detach that takes effect and then times out: the node stays PRIMARY, still recording the disk as attached, while
      nobody holds it. Only the mount is still exclusive. */
  lemma LateDetach(w: World) returns (acts: seq<Action>)
    requires w.holder == Some(NodeA) && w.a.proc == Demoting(0) && w.a.local.role == NodeRole.Primary
    requires w.a.local.diskState == AttachedRw
    ensures Run(w, acts)
    ensures var v := After(w, acts);
            v.holder == None && v.a.local.role == NodeRole.Primary && v.a.proc == Idle && !v.a.mounted && !ClaimHeld(v)
  {
    var calls := (step: DemoteStep) => if step == DetachDisk then Outcome(true, OtherError, false) else DONE;
    acts := DemotionIsRun(w, NodeA, 0, calls);
    var s := SiteOf(w, NodeA);
    var s1 := DemoteCall(s, PreCheck, DONE).site;
    var s2 := DemoteCall(s1, VipRelease, DONE).site;
    var s3 := DemoteCall(s2, PgStop, DONE).site;
    var s4 := DemoteCall(s3, Umount, DONE).site;
    var s5 := DemoteCall(s4, DetachDisk, Outcome(true, OtherError, false)).site;
    assert DemoteRun(s4, 4, calls) == Executed(s5, false);
    assert DemoteRun(s3, 3, calls) == Executed(s5, false);
    assert DemoteRun(s2, 2, calls) == Executed(s5, false);
    assert DemoteRun(s1, 1, calls) == Executed(s5, false);
    assert DemoteRun(s, 0, calls) == Executed(s5, false);
    var v := After(w, acts);
    assert SiteOf(v, NodeA) == s5;
    assert Claims(v.At(NodeA).local, v.At(NodeA).proc);
  }

  /** Where the two nodes stand in the run below. */
  predicate Stand(w: World, vip: string, holder: Option<Node>, a: Proc, b: Proc) {
    && w.vip == vip && w.holder == holder && w.a.proc == a && w.b.proc == b
    && w.b.local.role == NodeRole.Standby
  }

  lemma AReceives(w: World)
    requires Stand(w, w.vip, None, Idle, Idle) && w.a.inbox > 0 && w.a.local.role == NodeRole.Standby
    ensures Enabled(w, Deliver(NodeA)) && Stand(Step(w, Deliver(NodeA)), w.vip, None, Promoting(0), Idle)
  {}

  lemma AAttaches(w: World)
    requires Stand(w, w.vip, None, Promoting(0), Idle)
    ensures var act := PromoteAct(NodeA, false, DONE);
            Enabled(w, act) && Stand(Step(w, act), w.vip, Some(NodeA), Promoting(1), Idle)
  {}

  lemma AMounts(w: World)
    requires Stand(w, w.vip, Some(NodeA), Promoting(1), Idle)
    ensures var act := PromoteAct(NodeA, false, DONE);
            Enabled(w, act) && Stand(Step(w, act), w.vip, Some(NodeA), Promoting(2), Idle)
  {}

  lemma BStarts(w: World)
    requires Stand(w, w.vip, Some(NodeA), Promoting(2), Idle)
    ensures var act := FailStart(NodeB, true);
            Enabled(w, act) && Stand(Step(w, act), w.vip, Some(NodeA), Promoting(2), FailingOver(3))
  {}

  lemma BTakes(w: World)
    requires Stand(w, w.vip, Some(NodeA), Promoting(2), FailingOver(3))
    ensures var act := FailAct(NodeB, DONE);
            && Enabled(w, act) && TakesFromAcquirer(w, act)
            && Stand(Step(w, act), w.vip, Some(NodeB), Promoting(2), FailingOver(4))
  {}

  lemma BMounts(w: World)
    requires Stand(w, w.vip, Some(NodeB), Promoting(2), FailingOver(4))
    ensures var act := FailAct(NodeB, DONE);
            MayStep(w, act) && Stand(Step(w, act), w.vip, Some(NodeB), Promoting(2), FailingOver(5))
  {}

  ghost predicate Kept(w: World, acts: seq<Action>) {
    Run(w, acts) && Obeys(w, acts, VipContract)
  }

  lemma KeptCons(w: World, act: Action, acts: seq<Action>)
    requires Enabled(w, act) && VipContract(w, act) && Kept(Step(w, act), acts)
    ensures Kept(w, [act] + acts) && After(w, [act] + acts) == After(Step(w, act), acts)
  {
    hide Enabled, Step, VipContract, After, StateAt;
    RunCons(w, act, acts);
    forall j | 0 <= j < |[act] + acts| ensures VipContract(StateAt(w, [act] + acts, j), ([act] + acts)[j]) {
      if j == 0 {
        StateFirst(w, [act] + acts);
      } else {
        StateCons(w, act, acts, j);
        assert VipContract(StateAt(Step(w, act), acts, j - 1), acts[j - 1]);
      }
    }
  }

  /** From the takeover on: both mount, both free the other's NIC, both add. */
  lemma BothGoOn(w: World) returns (acts: seq<Action>)
    requires Stand(w, w.vip, Some(NodeB), Promoting(2), FailingOver(4))
    ensures Kept(w, acts) && !VipOnce(After(w, acts))
  {
    hide Enabled, Step, VipContract, TakesFromAcquirer, Tame, VipOnce;
    var mount := FailAct(NodeB, DONE);
    BMounts(w);
    var v := Step(w, mount);
    var own := FreesAlong(v, NodeA);
    var u := After(v, own);
    var peers := FreesAlong(u, NodeB);
    var adds := VipExclusivity.BothAdd(After(u, peers), NodeA);
    TameAppend(u, peers, adds);
    TameAppend(v, own, peers + adds);
    acts := [mount] + (own + (peers + adds));
    TameCons(w, mount, own + (peers + adds));
    TameIsKept(w, acts);
  }

  lemma TameIsKept(w: World, acts: seq<Action>)
    requires Tame(w, acts)
    ensures Kept(w, acts)
  {}

  /** Two idle standbys and a free disk. NodeA's promotion has mounted when a failover of NodeB, one without fencing,
      takes the disk; each then frees the other's NIC and each adds. Every call does what it says, and the VIP ends on
      both NICs. */
  lemma BothAdd(w: World) returns (acts: seq<Action>)
    requires AllIdle(w) && VipOnce(w) && w.holder == None && w.a.inbox > 0
    requires w.a.local.role == NodeRole.Standby == w.b.local.role
    ensures Run(w, acts) && Obeys(w, acts, VipContract) && !VipOnce(After(w, acts))
  {
    hide Enabled, Step, VipOnce;
    var request, step, start, take := Deliver(NodeA), PromoteAct(NodeA, false, DONE), FailStart(NodeB, true),
        FailAct(NodeB, DONE);
    AReceives(w);
    var w1 := Step(w, request);
    AAttaches(w1);
    var w2 := Step(w1, step);
    AMounts(w2);
    var w3 := Step(w2, step);
    BStarts(w3);
    var w4 := Step(w3, start);
    BTakes(w4);
    var rest := BothGoOn(Step(w4, take));
    KeptCons(w4, take, rest);
    KeptCons(w3, start, [take] + rest);
    KeptCons(w2, step, [start] + ([take] + rest));
    KeptCons(w1, step, [step] + ([start] + ([take] + rest)));
    acts := [request] + ([step] + ([step] + ([start] + ([take] + rest))));
    KeptCons(w, request, [step] + ([step] + ([start] + ([take] + rest))));
  }

  /* ---------------- the record during a self-demotion ---------------- */

  /** Every call is made and does what it says. */
  predicate AllDone(acts: seq<Action>) {
    forall act <- acts :: act == SelfStart(act.n) || act == SelfAct(act.n, DONE)
                          || act == Deliver(act.n) || act == PromoteAct(act.n, false, DONE)
  }

  lemma DoneObeys(w: World, acts: seq<Action>)
    requires AllDone(acts)
    ensures Obeys(w, acts, DiskContract) && Planned(acts)
  {
    forall i | 0 <= i < |acts| ensures DiskContract(StateAt(w, acts, i), acts[i]) {
      assert acts[i] in acts;
    }
  }

  lemma SelfOn(w: World, n: Node, pc: nat)
    requires w.At(n).proc == SelfDemoting(pc) && pc <= 4 && w.holder == Some(n)
    ensures Enabled(w, SelfAct(n, DONE))
    ensures var v := Step(w, SelfAct(n, DONE)); var p := n.Peer();
            && v.At(n).proc == SelfDemoting(pc + 1) && v.holder == (if pc == 4 then None else Some(n))
            && v.At(n).local == w.At(n).local
            && v.At(p).proc == w.At(p).proc && v.At(p).local == w.At(p).local && v.At(p).inbox == w.At(p).inbox
  {}

  lemma PromoteOn(w: World, n: Node, pc: nat)
    requires w.At(n).proc == Promoting(pc) && pc < PROMOTE_STEPS
    requires if pc == 0 then w.holder == None else w.holder == Some(n) && w.At(n).local.diskState == AttachedRw
    ensures Enabled(w, PromoteAct(n, false, DONE))
    ensures var v := Step(w, PromoteAct(n, false, DONE)); var p := n.Peer();
            && v.At(n).proc == (if pc == 5 then Idle else Promoting(pc + 1))
            && v.holder == Some(n) && v.At(n).local.diskState == AttachedRw
            && (pc == 5 ==> v.At(n).local.role == NodeRole.Primary)
            && v.At(p).local == w.At(p).local
  {}

  lemma {:induction false} PromoteTo(w: World, n: Node, pc: nat) returns (acts: seq<Action>)
    requires w.At(n).proc == Promoting(pc) && pc < PROMOTE_STEPS
    requires if pc == 0 then w.holder == None else w.holder == Some(n) && w.At(n).local.diskState == AttachedRw
    ensures Run(w, acts) && AllDone(acts)
    ensures var v := After(w, acts);
            && v.At(n).local.diskState == AttachedRw && v.At(n).local.role == NodeRole.Primary
            && v.At(n.Peer()).local == w.At(n.Peer()).local
    decreases PROMOTE_STEPS - pc
  {
    hide Enabled, Step;
    var act := PromoteAct(n, false, DONE);
    PromoteOn(w, n, pc);
    var rest: seq<Action> := [];
    if pc < 5 {
      rest := PromoteTo(Step(w, act), n, pc + 1);
    }
    acts := [act] + rest;
    RunCons(w, act, rest);
  }

  /** NodeA self-demotes up to its detach, and a late request then promotes NodeB. */
  lemma {:induction false} DetachThenPromote(w: World, pc: nat) returns (acts: seq<Action>)
    requires w.a.proc == SelfDemoting(pc) && pc <= 5 && w.holder == (if pc == 5 then None else Some(NodeA))
    requires w.b.proc == Idle && w.b.local.role == NodeRole.Standby && w.b.inbox > 0
    ensures Run(w, acts) && AllDone(acts)
    ensures var v := After(w, acts);
            v.a.local == w.a.local && v.b.local.diskState == AttachedRw && v.b.local.role == NodeRole.Primary
    decreases 5 - pc
  {
    hide Enabled;
    var act := if pc == 5 then Deliver(NodeB) else SelfAct(NodeA, DONE);
    var rest: seq<Action>;
    if pc == 5 {
      DeliverReady(w);
      rest := PromoteTo(Step(w, act), NodeB, 0);
    } else {
      SelfOn(w, NodeA, pc);
      rest := DetachThenPromote(Step(w, act), pc + 1);
    }
    acts := [act] + rest;
    RunCons(w, act, rest);
  }

  lemma DeliverReady(w: World)
    requires w.b.proc == Idle && w.b.local.role == NodeRole.Standby && w.b.inbox > 0
    ensures Enabled(w, Deliver(NodeB))
    ensures var v := Step(w, Deliver(NodeB)); v.b.proc == Promoting(0) && v.holder == w.holder && v.a.local == w.a.local
  {}

  /** A self-demotion corrects the record two steps after its detach. A request delivered in between makes the peer
      PRIMARY, and both nodes are then PRIMARY and record the disk as attached read-write, though every call does what
      it says. */
  lemma TwoRecords(w: World) returns (acts: seq<Action>)
    requires AllIdle(w) && MountHeld(w) && RecordHeld(w) && w.holder == Some(NodeA)
    requires w.a.local.role == NodeRole.Primary && w.a.local.diskState == AttachedRw
    requires w.b.local.role == NodeRole.Standby && w.b.inbox > 0
    ensures Run(w, acts) && Planned(acts) && Obeys(w, acts, DiskContract)
    ensures var v := After(w, acts);
            && v.a.local.role == NodeRole.Primary && v.a.local.diskState == AttachedRw
            && v.b.local.role == NodeRole.Primary && v.b.local.diskState == AttachedRw
  {
    var start := SelfStart(NodeA);
    var rest := DetachThenPromote(Step(w, start), 0);
    acts := [start] + rest;
    RunCons(w, start, rest);
    DoneObeys(w, acts);
  }

  /** Two requests handled at once on one node, which the model excludes and the daemon does not prevent: the first
      promotion's mount fails and it is about to undo its attach, when the second one mounts. Every call keeps its
      contract, and the node ends mounted without the disk. */
  lemma TwoPromotionsOnOneNode(s: Site)
    requires CleanStandby(s)
    ensures var failed := Outcome(false, RuntimeError, false);
            var s1 := PromoteMove(s, 0, false, DONE);               // first: ATTACH
            var s2 := PromoteMove(s1.site, 0, false, DONE);         // second: ATTACH, already attached
            var s3 := PromoteMove(s2.site, 1, false, failed);       // first: MOUNT fails
            var s4 := PromoteMove(s3.site, 1, false, DONE);         // second: MOUNT
            var s5 := UndoMove(s4.site, 1, DONE);                   // first: undo ATTACH
            && s1.proc == Promoting(1) == s2.proc && s3.proc == Undoing(1) && s4.proc == Promoting(2)
            && s5.site.mounted && s5.site.holder == None
  {
  }
}
