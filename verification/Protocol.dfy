/** Both nodes as one transition system. An action is one step of one engine on one node, together with
    the environment's answer to it, or the delivery or loss of a message. Actions of the two nodes
    interleave freely, and so does the main loop's refresh of the record with the engine of its own node.
    On one node at most one engine sequence runs at a time. What starts a sequence is guarded by the role
    only, and what the refresh writes is left open, so every run of the daemons that keeps to one sequence
    at a time on a node is among the runs here. */
module Protocol {
  import opened Basics
  import opened Models
  import opened Calls

  /** The engine sequence a node is running and the step it is about to take. `Undoing(k)` has k
      completed promotion steps left to undo; `ElectUndoing(k)` has done k of its two undo calls. */
  datatype Proc =
    | Idle
    | Demoting(pc: nat)
    | Promoting(pc: nat)
    | Undoing(left: nat)
    | SelfDemoting(pc: nat)
    | FailingOver(pc: nat)
    | Querying
    | Electing(pc: nat)
    | ElectUndoing(k: nat)

  datatype Host = Host(
    mounted: bool,
    running: bool,
    aliases: seq<string>,
    local: NodeState,
    proc: Proc,
    inbox: nat)     // SWITCHOVER_REQUESTs sent to this node and neither handled nor lost

  datatype World = World(vip: string, holder: Option<Node>, a: Host, b: Host)
  {
    function At(n: Node): Host {
      if n == NodeA then a else b
    }
  }

  function SiteOf(w: World, n: Node): Site {
    var h := w.At(n);
    Site(n, w.vip, w.holder, h.mounted, h.running, h.aliases, w.At(n.Peer()).aliases, h.local)
  }

  /** What an action does to the acting node's view and engine; whether it handles or drops one request
      addressed to this node, and whether it sends one to the peer. */
  datatype Move = Move(site: Site, proc: Proc, took: bool, sent: bool)

  function Go(s: Site, proc: Proc): Move {
    Move(s, proc, false, false)
  }

  datatype Action =
    | Command(n: Node)                                  // operator asks n to switch over
    | DemoteAct(n: Node, o: Outcome)
    | Deliver(n: Node)                                  // n handles a SWITCHOVER_REQUEST
    | Lose(n: Node)
    | PromoteAct(n: Node, unchecked: bool, o: Outcome)
    | UndoAct(n: Node, o: Outcome)
    | SelfStart(n: Node)
    | SelfAct(n: Node, o: Outcome)
    | FailStart(n: Node, skipFence: bool)
    | FailAct(n: Node, o: Outcome)
    | Boot(n: Node)                                     // daemon starts: election begins
    | QueryAct(n: Node, o: Outcome)
    | ElectAct(n: Node, o: Outcome)
    | ElectUndoAct(n: Node, o: Outcome)
    | Crash(n: Node)                                    // the machine stops
    | Restart(n: Node)                                  // only the daemon does: mount and server stay up
    | Observe(n: Node, pg: PgState, health: NodeHealth) // the main loop writes down what the monitors show

  /** The main loop starts after the election and stands still while it self-demotes. */
  predicate MainLoopFree(proc: Proc) {
    !proc.SelfDemoting? && !proc.Querying? && !proc.Electing? && !proc.ElectUndoing?
  }

  /** The engine is where the action needs it to be. */
  predicate Ready(role: NodeRole, proc: Proc, act: Action) {
    match act
    case Command(_) => proc.Idle? && role == NodeRole.Primary
    case DemoteAct(_, _) => proc.Demoting? && proc.pc < DEMOTE_STEPS
    case Deliver(_) => role != NodeRole.Standby || proc.Idle?
    case Lose(_) => true
    case PromoteAct(_, _, _) => proc.Promoting? && proc.pc < PROMOTE_STEPS
    case UndoAct(_, _) => proc.Undoing? && proc.left <= 4
    case SelfStart(_) => proc.Idle? && role == NodeRole.Primary
    case SelfAct(_, _) => proc.SelfDemoting? && proc.pc < SELF_STEPS
    case FailStart(_, _) => proc.Idle? && role == NodeRole.Standby
    case FailAct(_, _) => proc.FailingOver? && proc.pc < FAIL_STEPS
    case Boot(_) => proc.Idle? && role == NodeRole.Unknown
    case QueryAct(_, _) => proc.Querying?
    case ElectAct(_, _) => proc.Electing? && proc.pc < ELECT_STEPS
    case ElectUndoAct(_, _) => proc.ElectUndoing? && proc.k < 2
    case Crash(_) => true
    case Restart(_) => true
    case Observe(_, _, _) => MainLoopFree(proc)
  }

  /** The daemon on n loses its recorded state. */
  predicate Forgets(act: Action, n: Node) {
    act == Crash(n) || act == Restart(n)
  }

  predicate Enabled(w: World, act: Action) {
    var h := w.At(act.n);
    Ready(h.local.role, h.proc, act) && (act.Deliver? || act.Lose? ==> h.inbox > 0)
  }

  function DemoteMove(s: Site, pc: nat, o: Outcome): Move {
    var d := DemoteCall(s, DemoteStepAt(pc), o);
    // A request may be on its way although no acceptance came back.
    Move(d.site, if d.Raised() || pc + 1 == DEMOTE_STEPS then Idle else Demoting(pc + 1),
         false, DemoteStepAt(pc) == SignalPeer && o.effect)
  }

  function PromoteMove(s: Site, pc: nat, unchecked: bool, o: Outcome): Move {
    var d := PromoteCall(s, PromoteStepAt(pc), unchecked, o);
    Go(d.site, if d.Raised() then Undoing(CompletedBefore(pc))
               else if pc + 1 == PROMOTE_STEPS then Idle else Promoting(pc + 1))
  }

  function UndoMove(s: Site, left: nat, o: Outcome): Move {
    if left == 0 then Go(s, Idle) else Go(UndoCall(s, left, o).site, Undoing(left - 1))
  }

  function SelfMove(s: Site, pc: nat, o: Outcome): Move {
    Go(SelfCall(s, SelfStepAt(pc), o).site, if pc + 1 == SELF_STEPS then Idle else SelfDemoting(pc + 1))
  }

  function FailMove(s: Site, pc: nat, o: Outcome): Move {
    var d := FailCall(s, FailStepAt(pc), o);
    if d.Raised() then Go(SetHealth(d.site, Failed), Idle)
    else Go(d.site, if pc + 1 == FAIL_STEPS then Idle else FailingOver(pc + 1))
  }

  function QueryMove(s: Site, o: Outcome): Move {
    if o.blind || s.holder == None then Go(s, Electing(0))
    else if s.holder == Some(s.self) then Go(s, Electing(1))
    else Go(AsStandby(s), Idle)
  }

  /** Losing the race to attach makes the node standby; an error of another kind ends the daemon with its
      role still unknown. Later errors are undone first. */
  function ElectMove(s: Site, pc: nat, o: Outcome): Move {
    var d := ElectCall(s, ElectStepAt(pc), o);
    if !d.Raised() then Go(d.site, if pc + 1 == ELECT_STEPS then Idle else Electing(pc + 1))
    else if pc == 0 then Go(if d.reply == OtherError then d.site else AsStandby(d.site), Idle)
    else Go(SetHealth(d.site, Failed), ElectUndoing(0))
  }

  function ElectUndoMove(s: Site, k: nat, o: Outcome): Move {
    if k == 0 then Go(StopPostgres(s, o).site, ElectUndoing(1))
    else Go(AsStandby(Unmount(s, o).site), Idle)
  }

  function CrashMove(s: Site): Move {
    Go(s.(mounted := false, running := false, local := InitialState(s.local.name)), Idle)
  }

  function RestartMove(s: Site): Move {
    Go(s.(local := InitialState(s.local.name)), Idle)
  }

  function ObserveMove(s: Site, proc: Proc, pg: PgState, health: NodeHealth): Move {
    Go(SetHealth(SetPg(s, pg), health), proc)
  }

  function MoveOf(s: Site, proc: Proc, act: Action): Move
    requires Ready(s.local.role, proc, act)
  {
    match act
    case Command(_) => Go(s, Demoting(0))
    case DemoteAct(_, o) => DemoteMove(s, proc.pc, o)
    case Deliver(_) => Move(s, if s.local.role == NodeRole.Standby then Promoting(0) else proc, true, false)
    case Lose(_) => Move(s, proc, true, false)
    case PromoteAct(_, unchecked, o) => PromoteMove(s, proc.pc, unchecked, o)
    case UndoAct(_, o) => UndoMove(s, proc.left, o)
    case SelfStart(_) => Go(s, SelfDemoting(0))
    case SelfAct(_, o) => SelfMove(s, proc.pc, o)
    case FailStart(_, skip) => Go(s, FailingOver(if skip then FIRST_UNSKIPPED else 0))
    case FailAct(_, o) => FailMove(s, proc.pc, o)
    case Boot(_) => Go(s, Querying)
    case QueryAct(_, o) => QueryMove(s, o)
    case ElectAct(_, o) => ElectMove(s, proc.pc, o)
    case ElectUndoAct(_, o) => ElectUndoMove(s, proc.k, o)
    case Crash(_) => CrashMove(s)
    case Restart(_) => RestartMove(s)
    case Observe(_, pg, health) => ObserveMove(s, proc, pg, health)
  }

  /** Write the acting node's view back; of the peer only its alias list and inbox can change. */
  function Apply(w: World, n: Node, m: Move): World
    requires m.took ==> w.At(n).inbox > 0
  {
    var h := w.At(n);
    var p := w.At(n.Peer());
    var h' := Host(m.site.mounted, m.site.running, m.site.mine, m.site.local, m.proc,
                   if m.took then h.inbox - 1 else h.inbox);
    var p' := p.(aliases := m.site.peers, inbox := if m.sent then p.inbox + 1 else p.inbox);
    if n == NodeA then World(w.vip, m.site.holder, h', p') else World(w.vip, m.site.holder, p', h')
  }

  function MoveAt(w: World, act: Action): Move
    requires Enabled(w, act)
  {
    MoveOf(SiteOf(w, act.n), w.At(act.n).proc, act)
  }

  function Step(w: World, act: Action): World
    requires Enabled(w, act)
  {
    Apply(w, act.n, MoveAt(w, act))
  }

  /** Calls and recorded-state changes leave the node's own name and the VIP alone. */
  lemma MoveKeepsNames(s: Site, proc: Proc, act: Action)
    requires Ready(s.local.role, proc, act)
    ensures Named(MoveOf(s, proc, act).site, s)
  {
    hide DemoteMove, PromoteMove, SelfMove, FailMove, ElectMove;
    match act
    case DemoteAct(_, o) => DemoteKeepsNames(s, proc.pc, o);
    case PromoteAct(_, unchecked, o) => PromoteKeepsNames(s, proc.pc, unchecked, o);
    case SelfAct(_, o) => SelfKeepsNames(s, proc.pc, o);
    case FailAct(_, o) => FailKeepsNames(s, proc.pc, o);
    case ElectAct(_, o) => ElectKeepsNames(s, proc.pc, o);
    case _ =>
  }

  predicate Named(t: Site, s: Site) { t.self == s.self && t.vip == s.vip }

  lemma DemoteKeepsNames(s: Site, pc: nat, o: Outcome)
    ensures Named(DemoteMove(s, pc, o).site, s)
  {}

  lemma PromoteKeepsNames(s: Site, pc: nat, unchecked: bool, o: Outcome)
    ensures Named(PromoteMove(s, pc, unchecked, o).site, s)
  {}

  lemma SelfKeepsNames(s: Site, pc: nat, o: Outcome)
    ensures Named(SelfMove(s, pc, o).site, s)
  {}

  lemma FailKeepsNames(s: Site, pc: nat, o: Outcome)
    ensures Named(FailMove(s, pc, o).site, s)
  {}

  lemma ElectKeepsNames(s: Site, pc: nat, o: Outcome)
    ensures Named(ElectMove(s, pc, o).site, s)
  {}

  /** After a step the acting node sees what its move left, and the peer sees the same attachment and
      the same two alias lists from its own side, with everything else as it was. */
  lemma ViewsAfter(w: World, act: Action)
    requires Enabled(w, act)
    ensures var m := MoveAt(w, act); var w' := Step(w, act); var p := act.n.Peer();
            && SiteOf(w', act.n) == m.site
            && w'.At(act.n).proc == m.proc
            && SiteOf(w', p) == SiteOf(w, p).(holder := m.site.holder, mine := m.site.peers, peers := m.site.mine)
            && w'.At(p).proc == w.At(p).proc
  {
    MoveKeepsNames(SiteOf(w, act.n), w.At(act.n).proc, act);
  }

  /* ---------------- runs ---------------- */

  function After(w: World, acts: seq<Action>): World {
    if acts == [] then w
    else
      var before := After(w, acts[..|acts| - 1]);
      if Enabled(before, acts[|acts| - 1]) then Step(before, acts[|acts| - 1]) else before
  }

  /** The state before the i-th action. */
  function StateAt(w: World, acts: seq<Action>, i: nat): World
    requires i <= |acts|
  {
    After(w, acts[..i])
  }

  /** Every action is enabled in the state the earlier ones lead to. */
  ghost predicate Run(w: World, acts: seq<Action>) {
    forall i :: 0 <= i < |acts| ==> Enabled(StateAt(w, acts, i), acts[i])
  }

  lemma StateFirst(w: World, acts: seq<Action>)
    ensures StateAt(w, acts, 0) == w
  {
    assert acts[..0] == [];
  }

  lemma StateNext(w: World, acts: seq<Action>, i: nat)
    requires Run(w, acts) && i < |acts|
    ensures StateAt(w, acts, i + 1) == Step(StateAt(w, acts, i), acts[i])
  {
    var t := acts[..i + 1];
    assert t[..|t| - 1] == acts[..i] && t[|t| - 1] == acts[i];
  }
}
