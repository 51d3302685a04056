/** How a PRIMARY whose PostgreSQL has failed finds its way to STANDBY: the monitor, the main loop's refresh and
    the self-demotion steps of one node, interleaved with anything at all the peer does. The two uses are a live
    primary that has been fenced, and a switchover that broke off after stopping PostgreSQL. */
module Recovery {
  import opened Basics
  import opened Models
  import opened Aliases
  import opened Calls
  import opened Protocol
  import opened Monitors
  import opened Exclusivity
  import opened Causality
  import opened VipExclusivity

  /* ---------------- the main loop's refresh ---------------- */

  datatype Refreshed = Refreshed(mon: PgMon, local: NodeState, demote: bool)

  /** `blocked`: a switchover is active on this node, or maintenance mode is on. The recorded state is the one
      with which a self-demotion starts when there is one. */
  function Refresh(mon: PgMon, local: NodeState, blocked: bool, threshold: int): Refreshed {
    var m := MonNext(mon, SetActive(local.role == NodeRole.Primary));
    match m.snapshot
    case None => Refreshed(m, local, false)
    case Some(snap) =>
      var l := local.(pgState := snap.state);
      if snap.ok then Refreshed(m, if l.health != Healthy then l.(health := Healthy) else l, false)
      else if m.failCount >= threshold && l.role == NodeRole.Primary && !blocked
      then Refreshed(m, l.(health := Failed), true)
      else Refreshed(m, l, false)
  }

  /** The refresh starts a self-demotion exactly when the node is an unblocked PRIMARY whose last checks, as many as
      the threshold and since the last reset or deactivation of the monitor, all failed. */
  lemma SelfDemotionExactly(hist: seq<MonEvent>, local: NodeState, blocked: bool, threshold: nat)
    requires threshold > 0
    ensures var c := ChecksSince(hist);
            Refresh(MonAfter(hist), local, blocked, threshold).demote <==>
            && local.role == NodeRole.Primary && !blocked
            && threshold <= |c| && (forall i :: |c| - threshold <= i < |c| ==> !c[i].ok)
  {
    FailedEnoughExactly(hist, threshold);
  }

  /* ---------------- node n and its peer ---------------- */

  datatype View = View(w: World, mon: PgMon)

  datatype Event =
    | Check(snap: PgSnapshot)
    | Pass
    | OwnStep(o: Outcome)
    | PeerActs(act: Action)

  /** The main loop is busy while it self-demotes. */
  predicate EventEnabled(v: View, n: Node, e: Event) {
    match e
    case Check(_) => true
    case Pass => v.w.At(n).proc.Idle?
    case OwnStep(o) => Enabled(v.w, SelfAct(n, o))
    case PeerActs(act) => act.n == n.Peer() && Enabled(v.w, act)
  }

  function SetHost(w: World, n: Node, h: Host): World {
    if n == NodeA then w.(a := h) else w.(b := h)
  }

  function EventNext(v: View, n: Node, threshold: nat, e: Event): View
    requires EventEnabled(v, n, e)
  {
    match e
    case Check(snap) => v.(mon := MonNext(v.mon, Checked(snap)))
    case Pass =>
      var r := Refresh(v.mon, v.w.At(n).local, false, threshold);
      var h := v.w.At(n).(local := r.local);
      View(SetHost(v.w, n, if r.demote then h.(proc := SelfDemoting(0)) else h), r.mon)
    case OwnStep(o) =>
      View(Step(v.w, SelfAct(n, o)),
           if v.w.At(n).proc.pc + 1 == SELF_STEPS then MonNext(v.mon, SetActive(false)) else v.mon)
    case PeerActs(act) => v.(w := Step(v.w, act))
  }

  /** PostgreSQL checks fail and the release calls succeed; the peer's calls may do anything. */
  predicate Smooth(e: Event) {
    match e
    case Check(snap) => !snap.ok
    case Pass => true
    case OwnStep(o) => o.effect && !o.blind
    case PeerActs(_) => true
  }

  predicate Events(v: View, n: Node, threshold: nat, evs: seq<Event>)
    decreases |evs|
  {
    if evs == [] then true
    else
      && EventEnabled(v, n, evs[0]) && Smooth(evs[0])
      && Events(EventNext(v, n, threshold, evs[0]), n, threshold, evs[1..])
  }

  function EventsEnd(v: View, n: Node, threshold: nat, evs: seq<Event>): View
    requires Events(v, n, threshold, evs)
    decreases |evs|
  {
    if evs == [] then v else EventsEnd(EventNext(v, n, threshold, evs[0]), n, threshold, evs[1..])
  }

  /* ---------------- the measure ---------------- */

  /** A PRIMARY needs a pass to switch its monitor on, failing checks up to the threshold, one more pass, and then
      the steps of the self-demotion. */
  function Remaining(v: View, n: Node, threshold: nat): nat {
    var h := v.w.At(n);
    if h.proc.SelfDemoting? then Max(0, SELF_STEPS - h.proc.pc)
    else if h.local.role == NodeRole.Primary then
      SELF_STEPS + 1 + Max(0, threshold - v.mon.failCount) + if v.mon.active then 0 else 1
    else 0
  }

  /** The part of the node's own state that its self-demotion has already released. */
  predicate Released(s: Site, proc: Proc) {
    var pc := if proc.SelfDemoting? then proc.pc else if s.local.role == NodeRole.Primary then 0 else 8;
    && (pc >= 1 ==> s.vip !in s.mine)
    && (pc >= 2 ==> !s.running)
    && (pc >= 4 ==> !s.mounted)
    && (pc >= 5 ==> s.holder != Some(s.self))
    && (pc >= 6 ==> s.local.role == NodeRole.Standby)
    && (pc >= 7 ==> s.local.diskState == Detached)
    && (pc >= 8 ==> s.local.pgState == Stopped)
  }

  predicate MonSane(m: PgMon) {
    && (m.failCount > 0 ==> m.snapshot.Some? && !m.snapshot.value.ok)
    && (!m.active ==> m.snapshot == None && m.failCount == 0)
  }

  predicate Recovering(v: View, n: Node) {
    var h := v.w.At(n);
    && MonSane(v.mon)
    && (h.proc.Idle? || (h.proc.SelfDemoting? && h.proc.pc < SELF_STEPS))
    && h.local.role != NodeRole.Unknown
    && (h.proc.SelfDemoting? ==> h.local.role == if h.proc.pc <= 5 then NodeRole.Primary else NodeRole.Standby)
    && (h.proc.Idle? && h.local.role == NodeRole.Standby ==> !v.mon.active)
    && Released(SiteOf(v.w, n), h.proc)
  }

  /** Where it ends. */
  predicate Settled(w: World, n: Node) {
    var h := w.At(n);
    && h.local.role == NodeRole.Standby && h.local.diskState == Detached && h.local.pgState == Stopped
    && h.proc.Idle? && !h.mounted && !h.running
    && w.holder != Some(n) && w.vip !in h.aliases
  }

  lemma SettledWhenDone(v: View, n: Node, threshold: nat)
    requires Recovering(v, n)
    ensures Remaining(v, n, threshold) == 0 <==> Settled(v.w, n)
  {
  }

  /** The peer cannot give this node the disk or the VIP, nor touch anything else of its own. */
  lemma PeerCannotUndo(w: World, n: Node, act: Action)
    requires act.n == n.Peer() && Enabled(w, act)
    ensures var h, h' := w.At(n), Step(w, act).At(n);
            && h'.mounted == h.mounted && h'.running == h.running && h'.local == h.local && h'.proc == h.proc
            && (w.vip !in h.aliases ==> w.vip !in h'.aliases)
            && (w.holder != Some(n) ==> Step(w, act).holder != Some(n))
            && Step(w, act).vip == w.vip
  {
    ViewsAfter(w, act);
    MoveEdits(w, act);
    WithoutSpec(w.At(n).aliases, w.vip);
    HolderMove(w, act);
  }

  lemma HolderMove(w: World, act: Action)
    requires Enabled(w, act)
    ensures HolderOk(SiteOf(w, act.n), MoveAt(w, act).site)
  {
    hide DemoteMove, PromoteMove, SelfMove, FailMove, ElectMove;
    var s, proc := SiteOf(w, act.n), w.At(act.n).proc;
    match act
    case DemoteAct(_, o) => HolderDemote(s, proc.pc, o);
    case PromoteAct(_, unchecked, o) => HolderPromote(s, proc.pc, unchecked, o);
    case SelfAct(_, o) => HolderSelf(s, proc.pc, o);
    case FailAct(_, o) => HolderFail(s, proc.pc, o);
    case ElectAct(_, o) => HolderElect(s, proc.pc, o);
    case _ =>
  }

  /** A node leaves the attachment, ends it, or takes it for itself. */
  predicate HolderOk(s: Site, t: Site) {
    t.holder == s.holder || t.holder == Some(s.self) || t.holder == None
  }

  lemma HolderDemote(s: Site, pc: nat, o: Outcome)
    ensures HolderOk(s, DemoteMove(s, pc, o).site)
  {}

  lemma HolderPromote(s: Site, pc: nat, unchecked: bool, o: Outcome)
    ensures HolderOk(s, PromoteMove(s, pc, unchecked, o).site)
  {}

  lemma HolderSelf(s: Site, pc: nat, o: Outcome)
    ensures HolderOk(s, SelfMove(s, pc, o).site)
  {}

  lemma HolderFail(s: Site, pc: nat, o: Outcome)
    ensures HolderOk(s, FailMove(s, pc, o).site)
  {}

  lemma HolderElect(s: Site, pc: nat, o: Outcome)
    ensures HolderOk(s, ElectMove(s, pc, o).site)
  {}

  lemma SelfReleases(s: Site, pc: nat, o: Outcome)
    requires pc < SELF_STEPS && Released(s, SelfDemoting(pc)) && o.effect && !o.blind
    requires s.local.role == if pc <= 5 then NodeRole.Primary else NodeRole.Standby
    ensures var m := SelfMove(s, pc, o);
            && Released(m.site, m.proc)
            && m.site.local.role == if pc <= 4 then NodeRole.Primary else NodeRole.Standby
  {
    WithoutSpec(s.mine, s.vip);
  }

  lemma RecoveringOwn(v: View, n: Node, threshold: nat, o: Outcome)
    requires Recovering(v, n) && EventEnabled(v, n, OwnStep(o)) && o.effect && !o.blind
    ensures Recovering(EventNext(v, n, threshold, OwnStep(o)), n)
    ensures Remaining(EventNext(v, n, threshold, OwnStep(o)), n, threshold) == Remaining(v, n, threshold) - 1
  {
    ViewsAfter(v.w, SelfAct(n, o));
    SelfReleases(SiteOf(v.w, n), v.w.At(n).proc.pc, o);
  }

  lemma RecoveringPeer(v: View, n: Node, threshold: nat, act: Action)
    requires Recovering(v, n) && EventEnabled(v, n, PeerActs(act))
    ensures Recovering(EventNext(v, n, threshold, PeerActs(act)), n)
    ensures Remaining(EventNext(v, n, threshold, PeerActs(act)), n, threshold) == Remaining(v, n, threshold)
  {
    PeerCannotUndo(v.w, n, act);
  }

  /** The measure. No event raises it; each step of the self-demotion lowers it; so does each failing check while some
      are still missing, and each pass once none is, or when the monitor is off. */
  lemma RemainingStep(v: View, n: Node, threshold: nat, e: Event)
    requires threshold > 0 && Recovering(v, n) && EventEnabled(v, n, e) && Smooth(e)
    ensures Recovering(EventNext(v, n, threshold, e), n)
    ensures var k, k' := Remaining(v, n, threshold), Remaining(EventNext(v, n, threshold, e), n, threshold);
            && k' <= k
            && (e.OwnStep? ==> k' == k - 1 && k <= SELF_STEPS)
            && (e.Check? && v.mon.active && k > SELF_STEPS + 1 ==> k' == k - 1)
            && (e.Pass? && (k == SELF_STEPS + 1 || (k > 0 && !v.mon.active)) ==> k' == k - 1)
    ensures v.mon.active && Remaining(v, n, threshold) > SELF_STEPS && !e.OwnStep? ==>
              EventNext(v, n, threshold, e).mon.active
  {
    match e
    case Check(_) =>
    case Pass =>
    case OwnStep(o) => RecoveringOwn(v, n, threshold, o);
    case PeerActs(act) => RecoveringPeer(v, n, threshold, act);
  }

  /** Until it has settled the node always has a turn of its own that lowers the measure. */
  lemma TurnExists(v: View, n: Node, threshold: nat) returns (e: Event)
    requires threshold > 0 && Recovering(v, n) && !Settled(v.w, n)
    ensures !e.PeerActs? && EventEnabled(v, n, e) && Smooth(e)
    ensures Remaining(EventNext(v, n, threshold, e), n, threshold) == Remaining(v, n, threshold) - 1
  {
    SettledWhenDone(v, n, threshold);
    if v.w.At(n).proc.SelfDemoting? {
      e := OwnStep(DONE);
    } else if v.mon.active && v.mon.failCount < threshold {
      e := Check(PgSnapshot(false, Stopped));
    } else {
      e := Pass;
    }
    RemainingStep(v, n, threshold, e);
  }

  function Checks(evs: seq<Event>): nat {
    if evs == [] then 0 else (if evs[0].Check? then 1 else 0) + Checks(evs[1..])
  }

  function OwnSteps(evs: seq<Event>): nat {
    if evs == [] then 0 else (if evs[0].OwnStep? then 1 else 0) + OwnSteps(evs[1..])
  }

  lemma {:induction false} ChecksLower(v: View, n: Node, threshold: nat, evs: seq<Event>)
    requires threshold > 0 && Recovering(v, n) && Events(v, n, threshold, evs)
    requires v.mon.active || Remaining(v, n, threshold) <= SELF_STEPS
    ensures var v' := EventsEnd(v, n, threshold, evs);
            && Recovering(v', n)
            && Remaining(v', n, threshold) <= Max(SELF_STEPS + 1, Remaining(v, n, threshold) - Checks(evs))
    decreases |evs|
  {
    hide EventNext, Recovering, Remaining, EventEnabled;
    if evs != [] {
      RemainingStep(v, n, threshold, evs[0]);
      ChecksLower(EventNext(v, n, threshold, evs[0]), n, threshold, evs[1..]);
    }
  }

  lemma {:induction false} StepsLower(v: View, n: Node, threshold: nat, evs: seq<Event>)
    requires threshold > 0 && Recovering(v, n) && Events(v, n, threshold, evs)
    ensures var v' := EventsEnd(v, n, threshold, evs);
            && Recovering(v', n) && Remaining(v', n, threshold) <= Max(0, Remaining(v, n, threshold) - OwnSteps(evs))
            && (OwnSteps(evs) > 0 ==> Remaining(v', n, threshold) < SELF_STEPS)
    decreases |evs|
  {
    hide EventNext, Recovering, Remaining, EventEnabled;
    if evs != [] {
      RemainingStep(v, n, threshold, evs[0]);
      StepsLower(EventNext(v, n, threshold, evs[0]), n, threshold, evs[1..]);
    }
  }

  lemma {:induction false} EventsAppend(v: View, n: Node, threshold: nat, xs: seq<Event>, ys: seq<Event>)
    requires Events(v, n, threshold, xs + ys)
    ensures Events(v, n, threshold, xs) && Events(EventsEnd(v, n, threshold, xs), n, threshold, ys)
    ensures EventsEnd(v, n, threshold, xs + ys) == EventsEnd(EventsEnd(v, n, threshold, xs), n, threshold, ys)
    decreases |xs|
  {
    if xs == [] {
      assert xs + ys == ys;
    } else {
      assert (xs + ys)[1..] == xs[1..] + ys;
      EventsAppend(EventNext(v, n, threshold, xs[0]), n, threshold, xs[1..], ys);
    }
  }

  /* ---------------- the peer meanwhile ---------------- */

  /** The peer holds the disk and carries the VIP, once. */
  predicate PeerHas(w: World, n: Node) {
    w.holder == Some(n.Peer()) && Count(w.At(n.Peer()).aliases, w.vip) == 1
  }

  /** The call gives up the disk or the VIP of the node that makes it. */
  predicate GivesUp(w: World, act: Action) {
    var proc := w.At(act.n).proc;
    match act
    case DemoteAct(_, o) => o.effect && (proc == Demoting(1) || (proc == Demoting(4) && !o.blind))
    case UndoAct(_, o) => o.effect && (proc == Undoing(4) || (proc == Undoing(1) && !o.blind))
    case SelfAct(_, o) => o.effect && (proc == SelfDemoting(0) || (proc == SelfDemoting(4) && !o.blind))
    case _ => false
  }

  predicate Has(s: Site) {
    s.holder == Some(s.self) && Count(s.mine, s.vip) == 1
  }

  lemma DemoteHas(s: Site, pc: nat, o: Outcome)
    requires Has(s) && pc < DEMOTE_STEPS
    ensures Has(DemoteMove(s, pc, o).site) <==> !(o.effect && (pc == 1 || (pc == 4 && !o.blind)))
  {
    EditCounts(s.mine, s.vip);
  }

  lemma PromoteHas(s: Site, pc: nat, unchecked: bool, o: Outcome)
    requires Has(s)
    ensures Has(PromoteMove(s, pc, unchecked, o).site)
  {
    EditCounts(s.mine, s.vip);
  }

  lemma UndoHas(s: Site, left: nat, o: Outcome)
    requires Has(s) && left <= 4
    ensures Has(UndoMove(s, left, o).site) <==> !(o.effect && (left == 4 || (left == 1 && !o.blind)))
  {
    EditCounts(s.mine, s.vip);
  }

  lemma SelfHas(s: Site, pc: nat, o: Outcome)
    requires Has(s) && pc < SELF_STEPS
    ensures Has(SelfMove(s, pc, o).site) <==> !(o.effect && (pc == 0 || (pc == 4 && !o.blind)))
  {
    EditCounts(s.mine, s.vip);
  }

  lemma FailHas(s: Site, pc: nat, o: Outcome)
    requires Has(s)
    ensures Has(FailMove(s, pc, o).site)
  {
    hide FailCall;
    FailCallHas(s, FailStepAt(pc), o);
  }

  lemma FailCallHas(s: Site, step: FailStep, o: Outcome)
    requires Has(s)
    ensures Has(FailCall(s, step, o).site) && Has(SetHealth(FailCall(s, step, o).site, Failed))
  {
    EditCounts(s.mine, s.vip);
  }

  lemma ElectHas(s: Site, pc: nat, o: Outcome)
    requires Has(s)
    ensures Has(ElectMove(s, pc, o).site)
  {
    hide ElectCall;
    ElectCallHas(s, ElectStepAt(pc), o);
  }

  lemma ElectCallHas(s: Site, step: ElectStep, o: Outcome)
    requires Has(s)
    ensures var t := ElectCall(s, step, o).site; Has(t) && Has(SetHealth(t, Failed)) && Has(AsStandby(t))
  {
    EditCounts(s.mine, s.vip);
  }

  /** A node that has the disk and the VIP keeps both in a step of its own exactly when the step is not such a call. */
  lemma GivesUpExactly(w: World, n: Node, act: Action)
    requires PeerHas(w, n) && act.n == n.Peer() && Enabled(w, act)
    ensures PeerHas(Step(w, act), n) <==> !GivesUp(w, act)
  {
    hide DemoteMove, PromoteMove, UndoMove, SelfMove, FailMove, ElectMove;
    var s, proc := SiteOf(w, act.n), w.At(act.n).proc;
    ViewsAfter(w, act);
    MoveKeepsNames(s, proc, act);
    match act
    case DemoteAct(_, o) => DemoteHas(s, proc.pc, o);
    case PromoteAct(_, unchecked, o) => PromoteHas(s, proc.pc, unchecked, o);
    case UndoAct(_, o) => UndoHas(s, proc.left, o);
    case SelfAct(_, o) => SelfHas(s, proc.pc, o);
    case FailAct(_, o) => FailHas(s, proc.pc, o);
    case ElectAct(_, o) => ElectHas(s, proc.pc, o);
    case _ =>
  }

  /** On the way the node touches nothing but its own attachment and its own NIC: an event of its own leaves the peer's
      machine, NIC and record as they are, and the disk with the peer if the peer has it. */
  lemma OwnEventsLeavePeer(v: View, n: Node, threshold: nat, e: Event)
    requires EventEnabled(v, n, e) && !e.PeerActs?
    ensures var w' := EventNext(v, n, threshold, e).w;
            && w'.At(n.Peer()) == v.w.At(n.Peer()) && w'.vip == v.w.vip
            && (w'.holder == v.w.holder || (v.w.holder == Some(n) && w'.holder == None))
  {
    match e
    case OwnStep(o) =>
      ViewsAfter(v.w, SelfAct(n, o));
      SelfOwnOnly(SiteOf(v.w, n), v.w.At(n).proc.pc, o);
    case _ =>
  }

  lemma SelfOwnOnly(s: Site, pc: nat, o: Outcome)
    ensures var m := SelfMove(s, pc, o);
            && m.site.peers == s.peers
            && (m.site.holder == s.holder || (s.holder == Some(s.self) && m.site.holder == None))
  {
  }

  /* ---------------- a switchover that broke off ---------------- */

  lemma NoStartAsPrimary(w: World, act: Action, n: Node)
    requires Enabled(w, act) && RoleFits(w.At(n).local.role, w.At(n).proc)
    requires w.At(n).local.role == NodeRole.Primary && !w.At(n).running
    ensures !Step(w, act).At(n).running
  {
    hide DemoteMove, PromoteMove, SelfMove, FailMove, ElectMove;
    ViewsAfter(w, act);
    if act.n == n {
      var s, proc := SiteOf(w, n), w.At(n).proc;
      match act
      case DemoteAct(_, o) => NoStartDemote(s, proc.pc, o);
      case SelfAct(_, o) => NoStartSelf(s, proc.pc, o);
      case _ =>
    }
  }

  lemma NoStartDemote(s: Site, pc: nat, o: Outcome)
    requires !s.running
    ensures !DemoteMove(s, pc, o).site.running
  {}

  lemma NoStartSelf(s: Site, pc: nat, o: Outcome)
    requires !s.running
    ensures !SelfMove(s, pc, o).site.running
  {}

  /** A node that is PRIMARY with PostgreSQL stopped does not start it again for as long as it stays PRIMARY: not by
      itself, not through further switchover commands, and not because of a stale request. */
  lemma {:induction false} StoppedPrimaryStaysStopped(w: World, acts: seq<Action>, n: Node, j: nat, i: nat)
    requires Run(w, acts) && AllIdle(w) && j <= i <= |acts|
    requires forall m :: j <= m < i ==> RoleAt(w, acts, n, m) == NodeRole.Primary
    requires !StateAt(w, acts, j).At(n).running
    ensures !StateAt(w, acts, i).At(n).running
    decreases i
  {
    hide MoveOf;
    if j < i {
      StoppedPrimaryStaysStopped(w, acts, n, j, i - 1);
      RoleAlong(w, acts, i - 1, n);
      StateNext(w, acts, i - 1);
      assert RoleAt(w, acts, n, i - 1) == NodeRole.Primary;
      NoStartAsPrimary(StateAt(w, acts, i - 1), acts[i - 1], n);
    }
  }

  /** The peer's events in this history give up neither its disk nor its VIP. */
  predicate PeerKeeps(v: View, n: Node, threshold: nat, evs: seq<Event>)
    requires Events(v, n, threshold, evs)
    decreases |evs|
  {
    evs == []
    || (&& !(evs[0].PeerActs? && GivesUp(v.w, evs[0].act))
        && PeerKeeps(EventNext(v, n, threshold, evs[0]), n, threshold, evs[1..]))
  }

  lemma PeerHasNext(v: View, n: Node, threshold: nat, e: Event)
    requires EventEnabled(v, n, e) && PeerHas(v.w, n) && !(e.PeerActs? && GivesUp(v.w, e.act))
    ensures PeerHas(EventNext(v, n, threshold, e).w, n)
  {
    hide Step, GivesUp, Count;
    if e.PeerActs? {
      GivesUpExactly(v.w, n, e.act);
    } else {
      OwnEventsLeavePeer(v, n, threshold, e);
    }
  }

  /** However long it takes, nothing this node does costs a peer that has taken over the disk or the VIP. */
  lemma {:induction false} PeerHasAlong(v: View, n: Node, threshold: nat, evs: seq<Event>)
    requires Events(v, n, threshold, evs) && PeerHas(v.w, n) && PeerKeeps(v, n, threshold, evs)
    ensures PeerHas(EventsEnd(v, n, threshold, evs).w, n)
    decreases |evs|
  {
    hide EventNext, EventEnabled, PeerHas, GivesUp;
    if evs != [] {
      PeerHasNext(v, n, threshold, evs[0]);
      PeerHasAlong(EventNext(v, n, threshold, evs[0]), n, threshold, evs[1..]);
    }
  }

  /** And without events of its own the peer is left exactly as it was. */
  lemma {:induction false} PeerUntouched(v: View, n: Node, threshold: nat, evs: seq<Event>)
    requires Events(v, n, threshold, evs) && forall e <- evs :: !e.PeerActs?
    ensures EventsEnd(v, n, threshold, evs).w.At(n.Peer()) == v.w.At(n.Peer())
    decreases |evs|
  {
    hide EventNext, EventEnabled;
    if evs != [] {
      OwnEventsLeavePeer(v, n, threshold, evs[0]);
      assert forall e <- evs[1..] :: e in evs;
      PeerUntouched(EventNext(v, n, threshold, evs[0]), n, threshold, evs[1..]);
    }
  }

  /** The VIP is on exactly the peer's NIC, and the disk is the peer's. */
  predicate TakenOver(w: World, n: Node) {
    PeerHas(w, n) && Count(w.At(n).aliases, w.vip) == 0
  }

  /** Convergence. From any state of the two nodes in which n is an idle PRIMARY with its monitor on, whoever holds
      the disk by now: once the missing failing checks have been made, the next pass and the steps it starts leave n a
      STANDBY that has given everything up, whatever the peer does in between and however the events interleave. If
      the peer had taken over and gives nothing up itself, the disk is still its own and the VIP is on exactly its
      NIC. */
  lemma Converges(v: View, n: Node, threshold: nat, before: seq<Event>, after: seq<Event>)
    requires threshold > 0 && MonSane(v.mon) && v.mon.active
    requires v.w.At(n).local.role == NodeRole.Primary && v.w.At(n).proc.Idle?
    requires Events(v, n, threshold, before + ([Pass] + after))
    requires Checks(before) >= threshold - v.mon.failCount && OwnSteps(before) + OwnSteps(after) >= SELF_STEPS
    ensures Settled(EventsEnd(v, n, threshold, before + ([Pass] + after)).w, n)
    ensures PeerHas(v.w, n) && PeerKeeps(v, n, threshold, before + ([Pass] + after)) ==>
              TakenOver(EventsEnd(v, n, threshold, before + ([Pass] + after)).w, n)
  {
    hide MoveOf, PeerHas, PeerKeeps;
    if PeerHas(v.w, n) && PeerKeeps(v, n, threshold, before + ([Pass] + after)) {
      PeerHasAlong(v, n, threshold, before + ([Pass] + after));
    }
    assert Recovering(v, n);
    EventsAppend(v, n, threshold, before, [Pass] + after);
    ChecksLower(v, n, threshold, before);
    StepsLower(v, n, threshold, before);
    PassAndSteps(EventsEnd(v, n, threshold, before), n, threshold, after);
  }

  lemma PassAndSteps(v: View, n: Node, threshold: nat, after: seq<Event>)
    requires threshold > 0 && Recovering(v, n) && Remaining(v, n, threshold) <= SELF_STEPS + 1
    requires Events(v, n, threshold, [Pass] + after)
    requires OwnSteps(after) >= SELF_STEPS || Remaining(v, n, threshold) < SELF_STEPS
    ensures Settled(EventsEnd(v, n, threshold, [Pass] + after).w, n)
  {
    assert ([Pass] + after)[1..] == after;
    var v' := EventNext(v, n, threshold, Pass);
    RemainingStep(v, n, threshold, Pass);
    StepsLower(v', n, threshold, after);
    SettledWhenDone(EventsEnd(v', n, threshold, after), n, threshold);
  }

  /** Whether the monitor is on or off, as after a switchover attempt, during which the main loop may have switched it
      on again or not: one pass switches it on if need be, and from there the same holds. */
  lemma ConvergesAfterSwitchover(v: View, n: Node, threshold: nat, before: seq<Event>, after: seq<Event>)
    requires threshold > 0 && MonSane(v.mon)
    requires v.w.At(n).local.role == NodeRole.Primary && v.w.At(n).proc.Idle?
    requires Events(v, n, threshold, [Pass] + (before + ([Pass] + after)))
    requires Checks(before) >= threshold && OwnSteps(before) + OwnSteps(after) >= SELF_STEPS
    ensures Settled(EventsEnd(v, n, threshold, [Pass] + (before + ([Pass] + after))).w, n)
    ensures PeerHas(v.w, n) && PeerKeeps(v, n, threshold, [Pass] + (before + ([Pass] + after))) ==>
              TakenOver(EventsEnd(v, n, threshold, [Pass] + (before + ([Pass] + after))).w, n)
  {
    hide MoveOf, PeerHas, PeerKeeps;
    var rest := before + ([Pass] + after);
    assert ([Pass] + rest)[1..] == rest;
    var u := FirstPass(v, n, threshold);
    EventsAppend(u, n, threshold, before, [Pass] + after);
    ChecksLower(u, n, threshold, before);
    StepsLower(u, n, threshold, before);
    PassAndSteps(EventsEnd(u, n, threshold, before), n, threshold, after);
    if PeerHas(v.w, n) && PeerKeeps(v, n, threshold, [Pass] + rest) {
      PeerHasAlong(v, n, threshold, [Pass] + rest);
    }
  }

  lemma FirstPass(v: View, n: Node, threshold: nat) returns (u: View)
    requires threshold > 0 && MonSane(v.mon)
    requires v.w.At(n).local.role == NodeRole.Primary && v.w.At(n).proc.Idle?
    ensures u == EventNext(v, n, threshold, Pass) && Recovering(u, n)
    ensures u.mon.active || Remaining(u, n, threshold) <= SELF_STEPS
    ensures Remaining(u, n, threshold) <= SELF_STEPS + 1 + threshold
  {
    u := EventNext(v, n, threshold, Pass);
    assert Recovering(v, n);
    RemainingStep(v, n, threshold, Pass);
  }
}
