/** The virtual IP over every run. An acquisition is two separate calls, removing the address from the peer's NIC and
    adding it to one's own. It ends up on both NICs only after the disk has been taken from a node that had mounted it
    and was on its way to the VIP; without such a takeover only one node at a time is that far. */
module VipExclusivity {
  import opened Basics
  import opened Models
  import opened Aliases
  import opened Calls
  import opened Protocol
  import opened Exclusivity
  import opened SwitchoverFacts

  /** At most one NIC carries the VIP, and at most once. */
  ghost predicate VipOnce(w: World) {
    Count(w.a.aliases, w.vip) + Count(w.b.aliases, w.vip) <= 1
  }

  /** Between having mounted the disk and having added the VIP. */
  predicate Acquiring(proc: Proc) {
    || (proc.Promoting? && 2 <= proc.pc <= 4)
    || (proc.FailingOver? && 5 <= proc.pc <= 7)
    || (proc.Electing? && 2 <= proc.pc <= 4)
  }

  predicate AboutToAdd(proc: Proc) {
    proc == Promoting(4) || proc == FailingOver(7) || proc == Electing(4)
  }

  predicate TakesFromAcquirer(w: World, act: Action) {
    Takes(w, act) && Acquiring(w.At(act.n.Peer()).proc)
  }

  /** The look at the peer's NIC does not fail, and a removal there that returns took effect. */
  predicate VipContract(w: World, act: Action) {
    var proc := w.At(act.n).proc;
    match act
    case PromoteAct(_, _, o) => proc == Promoting(3) ==> FreeHonest(o)
    case FailAct(_, o) => proc == FailingOver(6) ==> FreeHonest(o)
    case ElectAct(_, o) => proc == Electing(3) ==> FreeHonest(o)
    case _ => true
  }

  predicate FreeHonest(o: Outcome) {
    !o.blind && (o.reply == Returned ==> o.effect)
  }

  /* ---------------- one step ---------------- */

  predicate OwnVip(s: Site, proc: Proc) {
    && Count(s.mine, s.vip) + Count(s.peers, s.vip) <= 1
    && (Acquiring(proc) ==> s.holder == Some(s.self))
    && (AboutToAdd(proc) ==> s.vip !in s.peers)
  }

  ghost predicate VipInv(w: World) {
    forall n: Node :: OwnVip(SiteOf(w, n), w.At(n).proc)
  }

  /** How a step may edit the two lists: drop the VIP from either, or, when about to add, add it to its own. */
  predicate Edits(s: Site, t: Site, mayAdd: bool) {
    && (t.mine == s.mine || t.mine == Without(s.mine, s.vip) || (mayAdd && t.mine == Aliases.With(s.mine, s.vip)))
    && (t.peers == s.peers || (t.peers == Without(s.peers, s.vip) && t.mine == s.mine))
  }

  lemma MoveEdits(w: World, act: Action)
    requires Enabled(w, act)
    ensures Edits(SiteOf(w, act.n), MoveAt(w, act).site, AboutToAdd(w.At(act.n).proc))
  {
    hide DemoteMove, PromoteMove, SelfMove, FailMove, ElectMove;
    var s, proc := SiteOf(w, act.n), w.At(act.n).proc;
    match act
    case DemoteAct(_, o) => DemoteEdits(s, proc.pc, o);
    case PromoteAct(_, unchecked, o) => PromoteEdits(s, proc.pc, unchecked, o);
    case SelfAct(_, o) => SelfEdits(s, proc.pc, o);
    case FailAct(_, o) => FailEdits(s, proc.pc, o);
    case ElectAct(_, o) => ElectEdits(s, proc.pc, o);
    case _ =>
  }

  lemma DemoteEdits(s: Site, pc: nat, o: Outcome)
    ensures Edits(s, DemoteMove(s, pc, o).site, false)
  {}

  lemma PromoteEdits(s: Site, pc: nat, unchecked: bool, o: Outcome)
    ensures Edits(s, PromoteMove(s, pc, unchecked, o).site, pc == 4)
  {}

  lemma SelfEdits(s: Site, pc: nat, o: Outcome)
    ensures Edits(s, SelfMove(s, pc, o).site, false)
  {}

  lemma FailEdits(s: Site, pc: nat, o: Outcome)
    ensures Edits(s, FailMove(s, pc, o).site, pc == 7)
  {
    hide FailCall;
    FailCallEdits(s, FailStepAt(pc), o);
  }

  lemma FailCallEdits(s: Site, step: FailStep, o: Outcome)
    ensures Edits(s, FailCall(s, step, o).site, step == FoVipAdd)
  {}

  lemma ElectEdits(s: Site, pc: nat, o: Outcome)
    ensures Edits(s, ElectMove(s, pc, o).site, pc == 4)
  {}

  /** The acting node's part: it acquires only with the disk its own, and adds only after freeing the peer. */
  lemma OwnVipMove(w: World, act: Action)
    requires Enabled(w, act) && VipContract(w, act) && OwnVip(SiteOf(w, act.n), w.At(act.n).proc)
    ensures var m := MoveAt(w, act);
            && (Acquiring(m.proc) ==> m.site.holder == Some(m.site.self))
            && (AboutToAdd(m.proc) ==> m.site.vip !in m.site.peers)
  {
    hide PromoteMove, FailMove, ElectMove, UndoCall, SelfCall, DemoteCall;
    var s, proc := SiteOf(w, act.n), w.At(act.n).proc;
    WithoutSpec(s.peers, s.vip);
    match act
    case DemoteAct(_, o) =>
    case PromoteAct(_, unchecked, o) => OwnVipPromote(s, proc.pc, unchecked, o);
    case UndoAct(_, o) =>
    case SelfAct(_, o) =>
    case FailAct(_, o) => OwnVipFail(s, proc.pc, o);
    case ElectAct(_, o) => OwnVipElect(s, proc.pc, o);
    case _ =>
  }

  predicate VipReady(m: Move) {
    && (Acquiring(m.proc) ==> m.site.holder == Some(m.site.self))
    && (AboutToAdd(m.proc) ==> m.site.vip !in m.site.peers)
  }

  lemma OwnVipPromote(s: Site, pc: nat, unchecked: bool, o: Outcome)
    requires pc < PROMOTE_STEPS && OwnVip(s, Promoting(pc)) && s.vip !in Without(s.peers, s.vip)
    requires pc == 3 ==> FreeHonest(o)
    ensures VipReady(PromoteMove(s, pc, unchecked, o))
  {}

  lemma OwnVipFail(s: Site, pc: nat, o: Outcome)
    requires pc < FAIL_STEPS && OwnVip(s, FailingOver(pc)) && s.vip !in Without(s.peers, s.vip)
    requires pc == 6 ==> FreeHonest(o)
    ensures VipReady(FailMove(s, pc, o))
  {
    hide FailCall, Count;
    FailCallVip(s, FailStepAt(pc), o);
  }

  lemma FailCallVip(s: Site, step: FailStep, o: Outcome)
    ensures var d := FailCall(s, step, o);
            && Named(d.site, s)
            && (step == FoMount && !d.Raised() ==> d.site.holder == Some(s.self))
            && (step in {FoPgStart, FoVipFree} ==> d.site.holder == s.holder)
            && (step == FoVipFree && !d.Raised() && FreeHonest(o) ==> s.vip !in d.site.peers)
  {
    WithoutSpec(s.peers, s.vip);
  }

  lemma OwnVipElect(s: Site, pc: nat, o: Outcome)
    requires pc < ELECT_STEPS && OwnVip(s, Electing(pc)) && s.vip !in Without(s.peers, s.vip)
    requires pc == 3 ==> FreeHonest(o)
    ensures VipReady(ElectMove(s, pc, o))
  {}

  /** Edits never bring the VIP to both lists, and without an addition never bring it to either. */
  lemma EditsOnce(s: Site, t: Site, mayAdd: bool)
    requires Edits(s, t, mayAdd) && (mayAdd ==> s.vip !in s.peers)
    requires Count(s.mine, s.vip) + Count(s.peers, s.vip) <= 1
    ensures Count(t.mine, s.vip) + Count(t.peers, s.vip) <= 1
    ensures !mayAdd && s.vip !in s.mine ==> s.vip !in t.mine
  {
    WithoutSpec(s.mine, s.vip);
    EditCounts(s.mine, s.vip);
    EditCounts(s.peers, s.vip);
  }

  /** The acting node's view after its step. */
  lemma OwnVipAfter(w: World, act: Action)
    requires Enabled(w, act) && VipContract(w, act) && OwnVip(SiteOf(w, act.n), w.At(act.n).proc)
    ensures OwnVip(MoveAt(w, act).site, MoveAt(w, act).proc)
    ensures MoveAt(w, act).site.vip == w.vip
    ensures !AboutToAdd(w.At(act.n).proc) && w.vip !in w.At(act.n).aliases ==> w.vip !in MoveAt(w, act).site.mine
  {
    hide MoveOf, VipContract;
    var s, t := SiteOf(w, act.n), MoveAt(w, act).site;
    MoveKeepsNames(s, w.At(act.n).proc, act);
    OwnVipMove(w, act);
    MoveEdits(w, act);
    EditsOnce(s, t, AboutToAdd(w.At(act.n).proc));
  }

  /** The peer keeps the disk it acquires with, and is not about to add while this node adds: the disk has one
      holder. */
  lemma PeerVipAfter(w: World, act: Action)
    requires Enabled(w, act) && VipInv(w) && VipContract(w, act) && !TakesFromAcquirer(w, act)
    ensures var t := MoveAt(w, act).site; var peer := w.At(act.n.Peer()).proc;
            && (Acquiring(peer) ==> t.holder == Some(act.n.Peer()))
            && (AboutToAdd(peer) ==> w.vip !in t.mine)
  {
    hide MoveOf, VipContract, Takes;
    var proc, peer := w.At(act.n).proc, w.At(act.n.Peer()).proc;
    assert OwnVip(SiteOf(w, act.n), proc);
    assert OwnVip(SiteOf(w, act.n.Peer()), peer);
    TakesExactly(w, act);
    ViewsAfter(w, act);
    OwnVipAfter(w, act);
  }

  lemma VipInvStep(w: World, act: Action)
    requires Enabled(w, act) && VipInv(w) && VipContract(w, act) && !TakesFromAcquirer(w, act)
    ensures VipInv(Step(w, act))
  {
    hide MoveOf, VipContract, TakesFromAcquirer, Count;
    assert OwnVip(SiteOf(w, act.n), w.At(act.n).proc);
    OwnVipAfter(w, act);
    PeerVipAfter(w, act);
    ViewsAfter(w, act);
    forall m: Node ensures OwnVip(SiteOf(Step(w, act), m), Step(w, act).At(m).proc) {
      assert m == act.n || m == act.n.Peer();
    }
  }

  lemma VipInvStart(w: World)
    requires AllIdle(w) && VipOnce(w)
    ensures VipInv(w)
  {}

  /** A run that keeps the contract and takes the disk from no acquiring node. */
  ghost predicate Tame(w: World, acts: seq<Action>) {
    && Run(w, acts) && Obeys(w, acts, VipContract)
    && forall j :: 0 <= j < |acts| ==> !TakesFromAcquirer(StateAt(w, acts, j), acts[j])
  }

  lemma {:induction false} VipInvAlong(w: World, acts: seq<Action>, i: nat)
    requires Run(w, acts) && VipInv(w) && Obeys(w, acts, VipContract) && i <= |acts|
    requires forall j :: 0 <= j < i ==> !TakesFromAcquirer(StateAt(w, acts, j), acts[j])
    ensures VipInv(StateAt(w, acts, i))
  {
    hide MoveOf, MoveAt, Step, Enabled, StateAt, VipInv, VipContract, TakesFromAcquirer;
    if i == 0 {
      StateFirst(w, acts);
    } else {
      VipInvAlong(w, acts, i - 1);
      VipInvStep(StateAt(w, acts, i - 1), acts[i - 1]);
      StateNext(w, acts, i - 1);
    }
  }

  /** As long as nobody takes the disk from a node that has mounted it and not yet added the VIP, the VIP is never on
      both NICs. */
  lemma VipExclusive(w: World, acts: seq<Action>, i: nat)
    requires Run(w, acts) && AllIdle(w) && VipOnce(w) && Obeys(w, acts, VipContract) && i <= |acts|
    requires forall j :: 0 <= j < i ==> !TakesFromAcquirer(StateAt(w, acts, j), acts[j])
    ensures VipOnce(StateAt(w, acts, i))
  {
    VipInvStart(w);
    VipInvAlong(w, acts, i);
    assert OwnVip(SiteOf(StateAt(w, acts, i), NodeA), StateAt(w, acts, i).At(NodeA).proc);
  }

  /** Planned runs need no such condition. */
  lemma SwitchoverVip(w: World, acts: seq<Action>, i: nat)
    requires Run(w, acts) && AllIdle(w) && VipOnce(w) && Planned(acts) && Obeys(w, acts, VipContract) && i <= |acts|
    ensures VipOnce(StateAt(w, acts, i))
  {
    forall j | 0 <= j < i ensures !TakesFromAcquirer(StateAt(w, acts, j), acts[j]) {
      PlannedNeverTakes(w, acts, j);
    }
    VipExclusive(w, acts, i);
  }

  /** The adding call takes effect while the VIP is on the peer's NIC and not yet on this node's: what another look at
      the peer's NIC just before the call would show. */
  predicate AddsBeside(w: World, act: Action) {
    && AboutToAdd(w.At(act.n).proc)
    && (act.PromoteAct? || act.FailAct? || act.ElectAct?) && act.o.effect
    && w.vip !in w.At(act.n).aliases && w.vip in w.At(act.n.Peer()).aliases
  }

  lemma EffectiveAdd(w: World, act: Action)
    requires Enabled(w, act) && AboutToAdd(w.At(act.n).proc) && w.vip !in w.At(act.n).aliases
    ensures w.vip in MoveAt(w, act).site.mine <==> (act.PromoteAct? || act.FailAct? || act.ElectAct?) && act.o.effect
  {
  }

  lemma EditsOnceExactly(s: Site, t: Site, mayAdd: bool)
    requires Edits(s, t, mayAdd) && Count(s.mine, s.vip) + Count(s.peers, s.vip) <= 1
    ensures Count(t.mine, s.vip) + Count(t.peers, s.vip) <= 1
       <==> !(s.vip !in s.mine && s.vip in t.mine && s.vip in s.peers)
    ensures !mayAdd && s.vip !in s.mine ==> s.vip !in t.mine
  {
    WithoutSpec(s.mine, s.vip);
    EditCounts(s.mine, s.vip);
    EditCounts(s.peers, s.vip);
  }

  lemma OnceStep(w: World, act: Action)
    requires Enabled(w, act) && VipOnce(w)
    ensures VipOnce(Step(w, act)) <==> !AddsBeside(w, act)
    ensures Step(w, act).vip == w.vip
  {
    hide MoveOf, Edits, Count;
    var s, t := SiteOf(w, act.n), MoveAt(w, act).site;
    ViewsAfter(w, act);
    MoveKeepsNames(s, w.At(act.n).proc, act);
    MoveEdits(w, act);
    EditsOnceExactly(s, t, AboutToAdd(w.At(act.n).proc));
    if AboutToAdd(w.At(act.n).proc) && w.vip !in s.mine {
      EffectiveAdd(w, act);
    }
  }

  lemma {:induction false} OnceAlong(w: World, acts: seq<Action>, i: nat)
    requires Run(w, acts) && VipOnce(w) && i <= |acts|
    requires forall j :: 0 <= j < i ==> !AddsBeside(StateAt(w, acts, j), acts[j])
    ensures VipOnce(StateAt(w, acts, i))
  {
    hide MoveOf, VipOnce, AddsBeside;
    if i == 0 {
      StateFirst(w, acts);
    } else {
      OnceAlong(w, acts, i - 1);
      OnceStep(StateAt(w, acts, i - 1), acts[i - 1]);
      StateNext(w, acts, i - 1);
    }
  }

  /** Over every run at all, with nothing assumed of any call: the VIP is on at most one NIC throughout if and only if
      no adding call takes effect while the peer's NIC carries it. */
  lemma VipOnceExactly(w: World, acts: seq<Action>)
    requires Run(w, acts) && VipOnce(w)
    ensures (forall i :: 0 <= i <= |acts| ==> VipOnce(StateAt(w, acts, i)))
       <==> (forall i :: 0 <= i < |acts| ==> !AddsBeside(StateAt(w, acts, i), acts[i]))
  {
    hide MoveOf, VipOnce, AddsBeside;
    if forall i :: 0 <= i < |acts| ==> !AddsBeside(StateAt(w, acts, i), acts[i]) {
      forall i | 0 <= i <= |acts| ensures VipOnce(StateAt(w, acts, i)) {
        OnceAlong(w, acts, i);
      }
    } else {
      var i :| 0 <= i < |acts| && AddsBeside(StateAt(w, acts, i), acts[i]);
      if VipOnce(StateAt(w, acts, i)) {
        OnceStep(StateAt(w, acts, i), acts[i]);
        StateNext(w, acts, i);
        assert !VipOnce(StateAt(w, acts, i + 1));
      }
    }
  }

  /** An acquisition that adds leaves the VIP on exactly the acquiring node's NIC. */
  lemma AcquisitionLands(w: World, acts: seq<Action>, i: nat)
    requires Run(w, acts) && AllIdle(w) && VipOnce(w) && Obeys(w, acts, VipContract) && i < |acts|
    requires forall j :: 0 <= j <= i ==> !TakesFromAcquirer(StateAt(w, acts, j), acts[j])
    requires var v := StateAt(w, acts, i);
             AboutToAdd(v.At(acts[i].n).proc) && v.vip in Step(v, acts[i]).At(acts[i].n).aliases
    ensures var v' := StateAt(w, acts, i + 1);
            Count(v'.At(acts[i].n).aliases, v'.vip) == 1 && Count(v'.At(acts[i].n.Peer()).aliases, v'.vip) == 0
  {
    hide MoveOf;
    var v := StateAt(w, acts, i);
    StateNext(w, acts, i);
    ViewsAfter(v, acts[i]);
    VipInvStart(w);
    VipInvAlong(w, acts, i + 1);
    assert OwnVip(SiteOf(StateAt(w, acts, i + 1), acts[i].n), StateAt(w, acts, i + 1).At(acts[i].n).proc);
    MoveKeepsNames(SiteOf(v, acts[i].n), v.At(acts[i].n).proc, acts[i]);
  }

  /* ---------------- what a takeover opens ---------------- */

  lemma TameNone(w: World)
    ensures Tame(w, []) && After(w, []) == w
  {}

  lemma TameCons(w: World, act: Action, acts: seq<Action>)
    requires Enabled(w, act) && VipContract(w, act) && !TakesFromAcquirer(w, act) && Tame(Step(w, act), acts)
    ensures Tame(w, [act] + acts) && After(w, [act] + acts) == After(Step(w, act), acts)
  {
    hide Enabled, Step, VipContract, TakesFromAcquirer, After, StateAt;
    RunCons(w, act, acts);
    forall j | 0 <= j < |[act] + acts|
      ensures var v := StateAt(w, [act] + acts, j);
              VipContract(v, ([act] + acts)[j]) && !TakesFromAcquirer(v, ([act] + acts)[j])
    {
      if j == 0 {
        StateFirst(w, [act] + acts);
      } else {
        StateCons(w, act, acts, j);
        assert VipContract(StateAt(Step(w, act), acts, j - 1), acts[j - 1]);
      }
    }
  }

  lemma {:induction false} TameAppend(w: World, xs: seq<Action>, ys: seq<Action>)
    requires Tame(w, xs) && Tame(After(w, xs), ys)
    ensures Tame(w, xs + ys) && After(w, xs + ys) == After(After(w, xs), ys)
    decreases |xs|
  {
    hide Enabled, Step, VipContract, TakesFromAcquirer, Tame;
    if xs == [] {
      assert xs + ys == ys;
    } else {
      TameTail(w, xs);
      TameAppend(Step(w, xs[0]), xs[1..], ys);
      TameCons(w, xs[0], xs[1..] + ys);
      assert [xs[0]] + (xs[1..] + ys) == xs + ys;
    }
  }

  lemma TameTail(w: World, xs: seq<Action>)
    requires Tame(w, xs) && xs != []
    ensures Enabled(w, xs[0]) && VipContract(w, xs[0]) && !TakesFromAcquirer(w, xs[0])
    ensures Tame(Step(w, xs[0]), xs[1..]) && After(w, xs) == After(Step(w, xs[0]), xs[1..])
  {
    hide Enabled, Step, VipContract, TakesFromAcquirer;
    StateFirst(w, xs);
    assert Enabled(StateAt(w, xs, 0), xs[0]);
    assert VipContract(StateAt(w, xs, 0), xs[0]);
    assert [xs[0]] + xs[1..] == xs;
    AfterCons(w, xs[0], xs[1..]);
    forall j | 0 <= j < |xs[1..]|
      ensures var v := StateAt(Step(w, xs[0]), xs[1..], j);
              Enabled(v, xs[1..][j]) && VipContract(v, xs[1..][j]) && !TakesFromAcquirer(v, xs[1..][j])
    {
      assert xs[..j + 1] == [xs[0]] + xs[1..][..j];
      AfterCons(w, xs[0], xs[1..][..j]);
      assert Enabled(StateAt(w, xs, j + 1), xs[j + 1]);
      assert VipContract(StateAt(w, xs, j + 1), xs[j + 1]);
    }
  }

  /** The next step of an acquisition, with success. */
  function Onward(n: Node, proc: Proc): Action {
    if proc.Promoting? then PromoteAct(n, false, DONE)
    else if proc.FailingOver? then FailAct(n, DONE)
    else ElectAct(n, DONE)
  }

  predicate MayStep(w: World, act: Action) {
    Enabled(w, act) && VipContract(w, act) && !TakesFromAcquirer(w, act)
  }

  /** One call on, with success: the disk stays where it is, and the peer's NIC is free of the VIP after the removal. */
  predicate GoesOn(s: Site, m: Move, removes: bool) {
    && Named(m.site, s) && m.site.holder == s.holder && m.site.mine == s.mine
    && (removes ==> s.vip !in m.site.peers)
  }

  lemma PromoteGoesOn(s: Site, pc: nat)
    requires 2 <= pc < 4
    ensures var m := PromoteMove(s, pc, false, DONE); m.proc == Promoting(pc + 1) && GoesOn(s, m, pc == 3)
  {
    WithoutSpec(s.peers, s.vip);
  }

  lemma FailGoesOn(s: Site, pc: nat)
    requires 5 <= pc < 7
    ensures var m := FailMove(s, pc, DONE); m.proc == FailingOver(pc + 1) && GoesOn(s, m, pc == 6)
  {
    WithoutSpec(s.peers, s.vip);
  }

  lemma ElectGoesOn(s: Site, pc: nat)
    requires 1 <= pc < 4 && (pc == 1 ==> s.holder == Some(s.self))
    ensures var m := ElectMove(s, pc, DONE); m.proc == Electing(pc + 1) && GoesOn(s, m, pc == 3)
  {
    WithoutSpec(s.peers, s.vip);
  }

  predicate TakesOff(proc: Proc) {
    proc == Promoting(3) || proc == FailingOver(6) || proc == Electing(3)
  }

  predicate CanGoOn(w: World, n: Node) {
    var proc := w.At(n).proc;
    (Acquiring(proc) && !AboutToAdd(proc)) || (proc == Electing(1) && w.holder == Some(n))
  }

  function ProcOn(proc: Proc): Proc {
    match proc
    case Promoting(pc) => Promoting(pc + 1)
    case FailingOver(pc) => FailingOver(pc + 1)
    case Electing(pc) => Electing(pc + 1)
    case _ => Idle
  }

  /** The move of the onward step, found without a look at what the other engines do. */
  lemma OnwardMove(w: World, n: Node)
    requires CanGoOn(w, n)
    ensures MayStep(w, Onward(n, w.At(n).proc))
    ensures var m := MoveAt(w, Onward(n, w.At(n).proc));
            GoesOn(SiteOf(w, n), m, TakesOff(w.At(n).proc)) && m.proc == ProcOn(w.At(n).proc)
  {
    hide PromoteMove, FailMove, ElectMove;
    match w.At(n).proc
    case Promoting(pc) => PromoteGoesOn(SiteOf(w, n), pc);
    case FailingOver(pc) => FailGoesOn(SiteOf(w, n), pc);
    case Electing(pc) => ElectGoesOn(SiteOf(w, n), pc);
  }

  lemma GoesOnward(w: World, n: Node)
    requires CanGoOn(w, n)
    ensures var act := Onward(n, w.At(n).proc); var p := n.Peer(); var v := Step(w, act);
            && MayStep(w, act) && v.holder == w.holder && v.vip == w.vip
            && v.At(n).proc == ProcOn(w.At(n).proc)
            && v.At(n).aliases == w.At(n).aliases && v.At(p).proc == w.At(p).proc
            && (TakesOff(w.At(n).proc) ==> w.vip !in v.At(p).aliases)
  {
    hide MoveOf, Ready, VipContract, TakesFromAcquirer, TakesOff;
    OnwardMove(w, n);
    ViewsAfter(w, Onward(n, w.At(n).proc));
  }

  function PcOf(proc: Proc): nat {
    match proc
    case Promoting(pc) => pc
    case FailingOver(pc) => pc
    case Electing(pc) => pc
    case _ => 0
  }

  /** A node this far can get to where it only has to add, with the peer's NIC free, and the rest as it was. */
  lemma {:induction false} FreesAlong(w: World, n: Node) returns (acts: seq<Action>)
    requires CanGoOn(w, n) || (AboutToAdd(w.At(n).proc) && w.vip !in w.At(n.Peer()).aliases)
    ensures Tame(w, acts)
    ensures var v := After(w, acts); var p := n.Peer();
            && AboutToAdd(v.At(n).proc) && w.vip !in v.At(p).aliases
            && v.vip == w.vip && v.holder == w.holder
            && v.At(n).aliases == w.At(n).aliases && v.At(p).proc == w.At(p).proc
    decreases 10 - PcOf(w.At(n).proc)
  {
    hide Enabled, Step, VipContract, TakesFromAcquirer, Tame;
    if AboutToAdd(w.At(n).proc) {
      acts := [];
      TameNone(w);
    } else {
      GoesOnward(w, n);
      var act := Onward(n, w.At(n).proc);
      var rest := FreesAlong(Step(w, act), n);
      acts := [act] + rest;
      TameCons(w, act, rest);
    }
  }

  /** Past its mount, without the disk. */
  predicate Exposed(w: World, n: Node) {
    var proc := w.At(n).proc;
    && Acquiring(proc) && w.holder != Some(n)
    && (AboutToAdd(proc) ==> w.vip !in w.At(n.Peer()).aliases)
  }

  /** Nothing but p's engine and record differ. */
  predicate OnlyEngine(w: World, v: World, p: Node) {
    && v.vip == w.vip && v.holder == w.holder && v.At(p.Peer()).proc == w.At(p.Peer()).proc
    && v.At(p).aliases == w.At(p).aliases && v.At(p.Peer()).aliases == w.At(p.Peer()).aliases
  }

  lemma Crashes(w: World, p: Node)
    ensures MayStep(w, Crash(p)) && OnlyEngine(w, Step(w, Crash(p)), p)
    ensures var h := Step(w, Crash(p)).At(p); h.proc == Idle && h.local.role == NodeRole.Unknown
  {
  }

  lemma Boots(w: World, p: Node)
    requires w.At(p).proc == Idle && w.At(p).local.role == NodeRole.Unknown
    ensures MayStep(w, Boot(p)) && OnlyEngine(w, Step(w, Boot(p)), p) && Step(w, Boot(p)).At(p).proc == Querying
  {
  }

  lemma Queries(w: World, p: Node)
    requires w.At(p).proc == Querying && w.holder != Some(p.Peer())
    ensures MayStep(w, QueryAct(p, DONE)) && OnlyEngine(w, Step(w, QueryAct(p, DONE)), p)
    ensures Step(w, QueryAct(p, DONE)).At(p).proc == Electing(if w.holder == None then 0 else 1)
  {
    if w.holder.Some? {
      assert w.holder.value == p || w.holder.value == p.Peer();
    }
  }

  lemma Attaches(w: World, p: Node)
    requires w.At(p).proc == Electing(0) && w.holder == None
    ensures MayStep(w, ElectAct(p, DONE)) && Step(w, ElectAct(p, DONE)).At(p).proc == Electing(1)
    ensures Step(w, ElectAct(p, DONE)).holder == Some(p)
    ensures OnlyEngine(w.(holder := Some(p)), Step(w, ElectAct(p, DONE)), p)
  {
  }

  /** Whatever the other node was doing, it can stop, boot, and find the disk free or its own. */
  lemma PeerBoots(w: World, n: Node) returns (acts: seq<Action>)
    requires w.holder != Some(n)
    ensures Tame(w, acts)
    ensures var v := After(w, acts); var p := n.Peer();
            && v.At(p).proc == Electing(1) && v.holder == Some(p) && v.vip == w.vip && v.At(n).proc == w.At(n).proc
            && v.At(p).aliases == w.At(p).aliases && v.At(n).aliases == w.At(n).aliases
  {
    hide Enabled, Step, VipContract, TakesFromAcquirer, Tame, Acquiring;
    var p := n.Peer();
    assert p.Peer() == n;
    Crashes(w, p);
    var w1 := Step(w, Crash(p));
    Boots(w1, p);
    var w2 := Step(w1, Boot(p));
    Queries(w2, p);
    var w3 := Step(w2, QueryAct(p, DONE));
    assert w3.holder.Some? ==> w3.holder.value == p || w3.holder.value == n;
    var rest: seq<Action> := [];
    if w3.holder == None {
      Attaches(w3, p);
      TameNone(Step(w3, ElectAct(p, DONE)));
      TameCons(w3, ElectAct(p, DONE), []);
      rest := [ElectAct(p, DONE)] + [];
    } else {
      TameNone(w3);
    }
    TameCons(w2, QueryAct(p, DONE), rest);
    TameCons(w1, Boot(p), [QueryAct(p, DONE)] + rest);
    acts := [Crash(p)] + ([Boot(p)] + ([QueryAct(p, DONE)] + rest));
    TameCons(w, Crash(p), [Boot(p)] + ([QueryAct(p, DONE)] + rest));
  }

  /** Two nodes that have both freed the other's NIC: each adds, and the VIP is on both. */
  lemma BothAdd(w: World, n: Node) returns (acts: seq<Action>)
    requires AboutToAdd(w.At(n).proc) && AboutToAdd(w.At(n.Peer()).proc)
    requires w.vip !in w.a.aliases && w.vip !in w.b.aliases
    ensures Tame(w, acts) && !VipOnce(After(w, acts))
  {
    var first, second := Onward(n, w.At(n).proc), Onward(n.Peer(), w.At(n.Peer()).proc);
    var v := Step(w, first);
    AddLands(w, n);
    AddLands(v, n.Peer());
    TameNone(Step(v, second));
    TameCons(v, second, []);
    acts := [first] + ([second] + []);
    TameCons(w, first, [second] + []);
    assert w.vip in Step(v, second).a.aliases && w.vip in Step(v, second).b.aliases;
  }

  lemma AddLands(w: World, n: Node)
    requires AboutToAdd(w.At(n).proc)
    ensures var act := Onward(n, w.At(n).proc); var p := n.Peer();
            && Enabled(w, act) && VipContract(w, act) && !TakesFromAcquirer(w, act)
            && Step(w, act).vip == w.vip
            && Step(w, act).At(n).aliases == Aliases.With(w.At(n).aliases, w.vip)
            && Step(w, act).At(p).aliases == w.At(p).aliases && Step(w, act).At(p).proc == w.At(p).proc
  {
  }

  /** From there the VIP can end up on both NICs, every call keeping its contract and no further takeover. */
  lemma ExposedLosesVip(w: World, n: Node) returns (acts: seq<Action>)
    requires Exposed(w, n)
    ensures Tame(w, acts) && !VipOnce(After(w, acts))
  {
    hide Enabled, Step, VipContract, TakesFromAcquirer, Tame, VipOnce;
    var own := FreesAlong(w, n);
    var boots := PeerBoots(After(w, own), n);
    TameAppend(w, own, boots);
    assert n.Peer().Peer() == n;
    var peers := FreesAlong(After(w, own + boots), n.Peer());
    TameAppend(w, own + boots, peers);
    var adds := BothAdd(After(w, own + boots + peers), n);
    TameAppend(w, own + boots + peers, adds);
    acts := own + boots + peers + adds;
  }

  lemma TakeoverExposes(w: World, act: Action)
    requires Enabled(w, act) && VipInv(w) && VipContract(w, act) && TakesFromAcquirer(w, act)
    ensures Exposed(Step(w, act), act.n.Peer())
  {
    hide MoveOf, VipContract;
    assert OwnVip(SiteOf(w, act.n), w.At(act.n).proc);
    assert OwnVip(SiteOf(w, act.n.Peer()), w.At(act.n.Peer()).proc);
    TakesExactly(w, act);
    OwnVipAfter(w, act);
    ViewsAfter(w, act);
  }

  /** The takeover and nothing else. After a run of any length in which no earlier action did so, the VIP can come to
      be on both NICs without a further takeover, every call keeping its contract, if and only if the last action took
      the disk from a node that had mounted it and not yet added the VIP. */
  lemma VipLostExactly(w: World, acts: seq<Action>, last: Action)
    requires AllIdle(w) && VipOnce(w) && Tame(w, acts)
    requires Enabled(After(w, acts), last) && VipContract(After(w, acts), last)
    ensures var u := Step(After(w, acts), last);
            TakesFromAcquirer(After(w, acts), last) <==> exists more :: Tame(u, more) && !VipOnce(After(u, more))
  {
    hide Enabled, Step, VipContract, TakesFromAcquirer, VipOnce, VipInv;
    VipInvStart(w);
    VipInvAlong(w, acts, |acts|);
    assert acts[..|acts|] == acts;
    var v := After(w, acts);
    var u := Step(v, last);
    if TakesFromAcquirer(v, last) {
      TakeoverExposes(v, last);
      var more := ExposedLosesVip(u, last.n.Peer());
    } else {
      VipInvStep(v, last);
      forall more | Tame(u, more) ensures VipOnce(After(u, more)) {
        VipInvAlong(u, more, |more|);
        assert more[..|more|] == more;
        VipInvHolds(After(u, more));
      }
    }
  }

  lemma VipInvHolds(w: World)
    requires VipInv(w)
    ensures VipOnce(w)
  {
    assert OwnVip(SiteOf(w, NodeA), w.At(NodeA).proc);
  }

  /* ---------------- conservation ---------------- */

  lemma OthersStep(w: World, act: Action, n: Node)
    requires Enabled(w, act)
    ensures Without(Step(w, act).At(n).aliases, w.vip) == Without(w.At(n).aliases, w.vip)
    ensures Step(w, act).vip == w.vip
  {
    ViewsAfter(w, act);
    MoveEdits(w, act);
    EditsKeepOthers(w.a.aliases, w.vip);
    EditsKeepOthers(w.b.aliases, w.vip);
  }

  /** No run of any length, with any failures, changes another alias of either NIC or their order. */
  lemma {:induction false} OtherAliasesConserved(w: World, acts: seq<Action>, i: nat, n: Node)
    requires Run(w, acts) && i <= |acts|
    ensures Without(StateAt(w, acts, i).At(n).aliases, w.vip) == Without(w.At(n).aliases, w.vip)
    ensures StateAt(w, acts, i).vip == w.vip
  {
    if i == 0 {
      StateFirst(w, acts);
    } else {
      OtherAliasesConserved(w, acts, i - 1, n);
      OthersStep(StateAt(w, acts, i - 1), acts[i - 1], n);
      StateNext(w, acts, i - 1);
    }
  }
}
