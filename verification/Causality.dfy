/** What the peer may conclude from a hand-over signal, over every run. */
module Causality {
  import opened Basics
  import opened Models
  import opened Calls
  import opened Protocol
  import opened Exclusivity

  /* ---------------- roles while an engine runs ---------------- */

  /** The role a node has while its engine is at this point; None when any role is possible. */
  function RoleDuring(proc: Proc): Option<NodeRole> {
    match proc
    case Idle => None
    case Demoting(_) => Some(NodeRole.Primary)
    case SelfDemoting(pc) => Some(if pc <= 5 then NodeRole.Primary else NodeRole.Standby)
    case Promoting(_) => Some(NodeRole.Standby)
    case Undoing(_) => Some(NodeRole.Standby)
    case FailingOver(_) => Some(NodeRole.Standby)
    case Querying => Some(NodeRole.Unknown)
    case Electing(_) => Some(NodeRole.Unknown)
    case ElectUndoing(_) => Some(NodeRole.Unknown)
  }

  predicate RoleFits(role: NodeRole, proc: Proc) {
    RoleDuring(proc) == None || RoleDuring(proc) == Some(role)
  }

  /** Apart from a crash or a restart of its daemon, a PRIMARY stops being one only in the last step of a switchover
      or in the role step of a self-demotion. */
  lemma RoleMove(s: Site, proc: Proc, act: Action)
    requires Ready(s.local.role, proc, act) && RoleFits(s.local.role, proc)
    ensures var m := MoveOf(s, proc, act);
            && RoleFits(m.site.local.role, m.proc)
            && (s.local.role == NodeRole.Primary && m.site.local.role != NodeRole.Primary
                && !Forgets(act, act.n) ==>
                  m.site.local.role == NodeRole.Standby && (proc == Demoting(6) || proc == SelfDemoting(5)))
  {
    hide DemoteMove, PromoteMove, SelfMove, FailMove, ElectMove;
    match act
    case DemoteAct(_, o) => RoleDemote(s, proc.pc, o);
    case PromoteAct(_, unchecked, o) => RolePromote(s, proc.pc, unchecked, o);
    case SelfAct(_, o) => RoleSelf(s, proc.pc, o);
    case FailAct(_, o) => RoleFail(s, proc.pc, o);
    case ElectAct(_, o) => RoleElect(s, proc.pc, o);
    case _ =>
  }

  lemma RoleDemote(s: Site, pc: nat, o: Outcome)
    requires pc < DEMOTE_STEPS && s.local.role == NodeRole.Primary
    ensures var m := DemoteMove(s, pc, o);
            && RoleFits(m.site.local.role, m.proc)
            && m.site.local.role == if pc == 6 then NodeRole.Standby else NodeRole.Primary
  {}

  lemma RolePromote(s: Site, pc: nat, unchecked: bool, o: Outcome)
    requires pc < PROMOTE_STEPS && s.local.role == NodeRole.Standby
    ensures var m := PromoteMove(s, pc, unchecked, o); RoleFits(m.site.local.role, m.proc)
  {}

  lemma RoleSelf(s: Site, pc: nat, o: Outcome)
    requires pc < SELF_STEPS && RoleFits(s.local.role, SelfDemoting(pc))
    ensures var m := SelfMove(s, pc, o);
            && RoleFits(m.site.local.role, m.proc)
            && m.site.local.role == if pc >= 5 then NodeRole.Standby else NodeRole.Primary
  {}

  lemma RoleFail(s: Site, pc: nat, o: Outcome)
    requires pc < FAIL_STEPS && s.local.role == NodeRole.Standby
    ensures var m := FailMove(s, pc, o); RoleFits(m.site.local.role, m.proc)
  {}

  lemma RoleElect(s: Site, pc: nat, o: Outcome)
    requires pc < ELECT_STEPS && s.local.role == NodeRole.Unknown
    ensures var m := ElectMove(s, pc, o); RoleFits(m.site.local.role, m.proc)
  {}

  lemma {:induction false} RoleAlong(w: World, acts: seq<Action>, i: nat, n: Node)
    requires Run(w, acts) && RoleFits(w.At(n).local.role, w.At(n).proc) && i <= |acts|
    ensures RoleFits(StateAt(w, acts, i).At(n).local.role, StateAt(w, acts, i).At(n).proc)
  {
    hide MoveOf;
    if i == 0 {
      StateFirst(w, acts);
    } else {
      RoleAlong(w, acts, i - 1, n);
      StateNext(w, acts, i - 1);
      var v := StateAt(w, acts, i - 1);
      ViewsAfter(v, acts[i - 1]);
      if acts[i - 1].n == n {
        RoleMove(SiteOf(v, n), v.At(n).proc, acts[i - 1]);
      }
    }
  }

  /* ---------------- steps taken earlier in the same sequence ---------------- */

  /** The engine is at step pc of a switchover on the primary side, or of a self-demotion. */
  predicate AtStep(proc: Proc, self: bool, pc: nat) {
    proc == if self then SelfDemoting(pc) else Demoting(pc)
  }

  predicate Beyond(proc: Proc, self: bool, k: nat) {
    if self then proc.SelfDemoting? && proc.pc > k else proc.Demoting? && proc.pc > k
  }

  ghost function ProcAt(w: World, acts: seq<Action>, n: Node, i: nat): Proc
    requires i <= |acts|
  {
    StateAt(w, acts, i).At(n).proc
  }

  ghost function RoleAt(w: World, acts: seq<Action>, n: Node, i: nat): NodeRole
    requires i <= |acts|
  {
    StateAt(w, acts, i).At(n).local.role
  }

  /** The j-th action took step k of a sequence that has been running without a break from then to state i. */
  ghost predicate TookStep(w: World, acts: seq<Action>, n: Node, self: bool, k: nat, j: nat, i: nat) {
    && j < i <= |acts|
    && acts[j].n == n && (if self then acts[j].SelfAct? else acts[j].DemoteAct?)
    && AtStep(ProcAt(w, acts, n, j), self, k)
    && AtStep(ProcAt(w, acts, n, j + 1), self, k + 1)
    && (forall m :: j < m <= i ==> Beyond(ProcAt(w, acts, n, m), self, k))
  }

  lemma ProcStep(w: World, act: Action, n: Node, self: bool, pc: nat)
    requires Enabled(w, act) && AtStep(Step(w, act).At(n).proc, self, pc)
    ensures || w.At(n).proc == Step(w, act).At(n).proc
            || (pc == 0 && w.At(n).proc == Idle)
            || (pc > 0 && act.n == n && AtStep(w.At(n).proc, self, pc - 1)
                && if self then act.SelfAct? else act.DemoteAct?)
  {
    hide DemoteCall, PromoteCall, SelfCall, FailCall, ElectCall, UndoCall, Unmount, StopPostgres;
    ViewsAfter(w, act);
  }

  lemma StepBefore(w: World, acts: seq<Action>, n: Node, self: bool, pc: nat, i: nat)
    requires Run(w, acts) && AllIdle(w) && i <= |acts| && pc > 0 && AtStep(ProcAt(w, acts, n, i), self, pc)
    ensures i > 0
    ensures || AtStep(ProcAt(w, acts, n, i - 1), self, pc)
            || (AtStep(ProcAt(w, acts, n, i - 1), self, pc - 1) && acts[i - 1].n == n
                && if self then acts[i - 1].SelfAct? else acts[i - 1].DemoteAct?)
  {
    if i == 0 {
      StateFirst(w, acts);
      assert false;
    }
    StateNext(w, acts, i - 1);
    ProcStep(StateAt(w, acts, i - 1), acts[i - 1], n, self, pc);
  }

  lemma TookStepLonger(w: World, acts: seq<Action>, n: Node, self: bool, k: nat, j: nat, i: nat)
    requires 0 < i <= |acts| && TookStep(w, acts, n, self, k, j, i - 1) && Beyond(ProcAt(w, acts, n, i), self, k)
    ensures TookStep(w, acts, n, self, k, j, i)
  {
  }

  lemma TookWhen(w: World, acts: seq<Action>, n: Node, self: bool, k: nat, j: nat, i: nat)
    requires TookStep(w, acts, n, self, k, j, i)
    ensures j < i <= |acts| && Beyond(StateAt(w, acts, i).At(n).proc, self, k)
    ensures if i == j + 1 then
              && acts[j].n == n && (if self then acts[j].SelfAct? else acts[j].DemoteAct?)
              && AtStep(StateAt(w, acts, j).At(n).proc, self, k) && AtStep(StateAt(w, acts, i).At(n).proc, self, k + 1)
            else Beyond(StateAt(w, acts, i - 1).At(n).proc, self, k) && TookStep(w, acts, n, self, k, j, i - 1)
  {
    assert Beyond(ProcAt(w, acts, n, i), self, k);
    if i > j + 1 {
      assert Beyond(ProcAt(w, acts, n, i - 1), self, k);
    }
  }

  lemma TookStepNow(w: World, acts: seq<Action>, n: Node, self: bool, k: nat, i: nat)
    requires 0 < i <= |acts| && AtStep(ProcAt(w, acts, n, i), self, k + 1) && AtStep(ProcAt(w, acts, n, i - 1), self, k)
    requires acts[i - 1].n == n && if self then acts[i - 1].SelfAct? else acts[i - 1].DemoteAct?
    ensures TookStep(w, acts, n, self, k, i - 1, i)
  {
  }

  lemma {:induction false} EarlierStep(w: World, acts: seq<Action>, n: Node, self: bool, pc: nat, k: nat, i: nat)
      returns (j: nat)
    requires Run(w, acts) && AllIdle(w) && i <= |acts| && k < pc
    requires AtStep(ProcAt(w, acts, n, i), self, pc)
    ensures TookStep(w, acts, n, self, k, j, i)
    decreases i
  {
    hide MoveOf;
    StepBefore(w, acts, n, self, pc, i);
    if AtStep(ProcAt(w, acts, n, i - 1), self, pc) {
      j := EarlierStep(w, acts, n, self, pc, k, i - 1);
      TookStepLonger(w, acts, n, self, k, j, i);
    } else if k == pc - 1 {
      j := i - 1;
      TookStepNow(w, acts, n, self, k, i);
    } else {
      j := EarlierStep(w, acts, n, self, pc - 1, k, i - 1);
      TookStepLonger(w, acts, n, self, k, j, i);
    }
  }

  /** Steps of one sequence were taken in their order. */
  lemma StepsInOrder(w: World, acts: seq<Action>, n: Node, self: bool, k: nat, j: nat, k': nat, j': nat, i: nat)
    requires TookStep(w, acts, n, self, k, j, i) && TookStep(w, acts, n, self, k', j', i) && k < k'
    ensures j < j'
  {
    assert !Beyond(ProcAt(w, acts, n, j), self, k');
  }

  lemma FourReleases(w: World, acts: seq<Action>, n: Node, self: bool, pc: nat, i: nat)
      returns (vip: nat, stop: nat, umount: nat, detach: nat)
    requires Run(w, acts) && AllIdle(w) && i <= |acts| && pc > 4 && AtStep(ProcAt(w, acts, n, i), self, pc)
    ensures vip < stop < umount < detach < i
    ensures TookStep(w, acts, n, self, if self then 0 else 1, vip, i)
    ensures TookStep(w, acts, n, self, if self then 1 else 2, stop, i)
    ensures TookStep(w, acts, n, self, 3, umount, i)
    ensures TookStep(w, acts, n, self, 4, detach, i)
  {
    hide StateAt, Run, AtStep;
    var first := if self then 0 else 1;
    vip := EarlierStep(w, acts, n, self, pc, first, i);
    stop := EarlierStep(w, acts, n, self, pc, first + 1, i);
    umount := EarlierStep(w, acts, n, self, pc, 3, i);
    detach := EarlierStep(w, acts, n, self, pc, 4, i);
    StepsInOrder(w, acts, n, self, first, vip, first + 1, stop, i);
    StepsInOrder(w, acts, n, self, first + 1, stop, 3, umount, i);
    StepsInOrder(w, acts, n, self, 3, umount, 4, detach, i);
  }

  /** A SWITCHOVER_REQUEST leaves a node only after that node's VIP_RELEASE, PG_STOP, UMOUNT and DETACH have
      returned, in this order, in one unbroken sequence that has reached SIGNAL_PEER. */
  lemma RequestAfterRelease(w: World, acts: seq<Action>, i: nat) returns (vip: nat, stop: nat, umount: nat, detach: nat)
    requires Run(w, acts) && AllIdle(w) && i < |acts| && MoveAt(StateAt(w, acts, i), acts[i]).sent
    ensures var n := acts[i].n;
            && vip < stop < umount < detach < i
            && TookStep(w, acts, n, false, 1, vip, i)
            && TookStep(w, acts, n, false, 2, stop, i)
            && TookStep(w, acts, n, false, 3, umount, i)
            && TookStep(w, acts, n, false, 4, detach, i)
    ensures DemoteStepAt(1) == VipRelease && DemoteStepAt(2) == PgStop
    ensures DemoteStepAt(3) == Umount && DemoteStepAt(4) == DetachDisk
  {
    hide MoveOf, TookStep;
    var n := acts[i].n;
    SentAtSignal(StateAt(w, acts, i), acts[i]);
    vip, stop, umount, detach := FourReleases(w, acts, n, false, 5, i);
  }

  lemma SentAtSignal(w: World, act: Action)
    requires Enabled(w, act) && MoveAt(w, act).sent
    ensures act.DemoteAct? && w.At(act.n).proc == Demoting(5)
  {
  }

  lemma PrimaryBefore(w: World, acts: seq<Action>, n: Node, i: nat)
    requires Run(w, acts) && AllIdle(w) && 0 < i <= |acts| && !Forgets(acts[i - 1], n)
    requires RoleAt(w, acts, n, i - 1) == NodeRole.Primary && RoleAt(w, acts, n, i) != NodeRole.Primary
    ensures ProcAt(w, acts, n, i - 1) == Demoting(6) || ProcAt(w, acts, n, i - 1) == SelfDemoting(5)
  {
    var v := StateAt(w, acts, i - 1);
    RoleAlong(w, acts, i - 1, n);
    StateNext(w, acts, i - 1);
    ViewsAfter(v, acts[i - 1]);
    assert acts[i - 1].n == n;
    RoleMove(SiteOf(v, n), v.At(n).proc, acts[i - 1]);
  }

  /** The last state in which a former PRIMARY still was one. */
  lemma {:induction false} LastPrimary(w: World, acts: seq<Action>, n: Node, j: nat, i: nat) returns (p: nat)
    requires Run(w, acts) && AllIdle(w) && j < i <= |acts|
    requires RoleAt(w, acts, n, j) == NodeRole.Primary && RoleAt(w, acts, n, i) != NodeRole.Primary
    requires forall m :: j <= m < i ==> !Forgets(acts[m], n)
    ensures j <= p < i
    ensures ProcAt(w, acts, n, p) == Demoting(6) || ProcAt(w, acts, n, p) == SelfDemoting(5)
    ensures forall m :: p < m <= i ==> RoleAt(w, acts, n, m) != NodeRole.Primary
    decreases i
  {
    hide *;
    if RoleAt(w, acts, n, i - 1) == NodeRole.Primary {
      p := i - 1;
      PrimaryBefore(w, acts, n, i);
    } else {
      p := LastPrimary(w, acts, n, j, i - 1);
    }
  }

  /** A heartbeat carries a node's state as of some point of the run. If it shows a node that has been PRIMARY in
      another role, with whatever disk state, and its daemon has run since, then the demotion that ended its last time
      as PRIMARY had attempted all its releases, in one unbroken sequence and in this order: the VIP, PostgreSQL, the
      unmount and the detach, on either demotion path. */
  lemma HeartbeatAfterRelease(w: World, acts: seq<Action>, n: Node, j: nat, i: nat)
      returns (p: nat, self: bool, vip: nat, stop: nat, umount: nat, detach: nat)
    requires Run(w, acts) && AllIdle(w) && j < i <= |acts|
    requires RoleAt(w, acts, n, j) == NodeRole.Primary && RoleAt(w, acts, n, i) != NodeRole.Primary
    requires forall m :: j <= m < i ==> !Forgets(acts[m], n)
    ensures vip < stop < umount < detach < p < i
    ensures forall m :: p < m <= i ==> RoleAt(w, acts, n, m) != NodeRole.Primary
    ensures TookStep(w, acts, n, self, if self then 0 else 1, vip, p)
    ensures TookStep(w, acts, n, self, if self then 1 else 2, stop, p)
    ensures TookStep(w, acts, n, self, 3, umount, p)
    ensures TookStep(w, acts, n, self, 4, detach, p)
    ensures SelfStepAt(0) == SelfRelease && SelfStepAt(1) == SelfStop
    ensures SelfStepAt(3) == SelfUnmount && SelfStepAt(4) == SelfDetach
    ensures DemoteStepAt(1) == VipRelease && DemoteStepAt(2) == PgStop
    ensures DemoteStepAt(3) == Umount && DemoteStepAt(4) == DetachDisk
  {
    hide MoveOf, TookStep;
    p := LastPrimary(w, acts, n, j, i);
    self := ProcAt(w, acts, n, p).SelfDemoting?;
    vip, stop, umount, detach := FourReleases(w, acts, n, self, if self then 5 else 6, p);
  }

  /* ---------------- requests on their way ---------------- */

  /** The request leaves, whether or not its acceptance comes back. */
  predicate Sends(w: World, act: Action) {
    act.DemoteAct? && w.At(act.n).proc == Demoting(5) && act.o.effect
  }

  function SentTo(w: World, acts: seq<Action>, n: Node, i: nat): nat
    requires i <= |acts|
  {
    if i == 0 then 0
    else SentTo(w, acts, n, i - 1)
         + if acts[i - 1].n == n.Peer() && Sends(StateAt(w, acts, i - 1), acts[i - 1]) then 1 else 0
  }

  function TakenBy(acts: seq<Action>, n: Node, i: nat): nat
    requires i <= |acts|
  {
    if i == 0 then 0
    else TakenBy(acts, n, i - 1) + if acts[i - 1] in {Deliver(n), Lose(n)} then 1 else 0
  }

  lemma SendsExactly(w: World, act: Action)
    requires Enabled(w, act)
    ensures MoveAt(w, act).sent <==> Sends(w, act)
    ensures MoveAt(w, act).took <==> act.Deliver? || act.Lose?
  {
    hide PromoteCall, SelfCall, FailCall, ElectCall, UndoCall, DemoteCall;
  }

  lemma InboxNext(w: World, act: Action, n: Node)
    requires Enabled(w, act)
    ensures Step(w, act).At(n).inbox
         == w.At(n).inbox + (if act.n == n.Peer() && Sends(w, act) then 1 else 0)
                          - (if act in {Deliver(n), Lose(n)} then 1 else 0)
  {
    hide MoveOf;
    SendsExactly(w, act);
  }

  /** No request is made up, doubled or forgotten: in every run those on their way to a node are the ones it began
      with and those sent to it since, less those it has handled or that were lost. */
  lemma {:induction false} RequestsConserved(w: World, acts: seq<Action>, i: nat, n: Node)
    requires Run(w, acts) && i <= |acts|
    ensures StateAt(w, acts, i).At(n).inbox == w.At(n).inbox + SentTo(w, acts, n, i) - TakenBy(acts, n, i)
  {
    hide Step, Enabled, Sends;
    if i == 0 {
      StateFirst(w, acts);
    } else {
      RequestsConserved(w, acts, i - 1, n);
      InboxNext(StateAt(w, acts, i - 1), acts[i - 1], n);
      StateNext(w, acts, i - 1);
    }
  }
}
