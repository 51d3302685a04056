/** gcp/disk.py and gcp/network.py: what one resource call does to the outside world, and the
    engine steps built from such calls.

    A call is described by an outcome chosen by the environment: whether the request took effect,
    how the call came back, and whether the look-up the call makes first failed. Nothing here ties
    the three together: a call may raise although it took effect, or return although it did not.
    The theorems state which combinations they exclude. */
module Calls {
  import opened Basics
  import opened Models
  import opened Aliases

  /** Returned normally, raised a RuntimeError (Busy: one that says "already being used"),
      or raised something that is not a RuntimeError, such as a timeout. */
  datatype Reply = Returned | Busy | RuntimeError | OtherError

  datatype Outcome = Outcome(effect: bool, reply: Reply, blind: bool)

  const DONE := Outcome(true, Returned, false)

  /** What the engines of one node can see and change: the disk attachment, this machine's mount and
      PostgreSQL, both NIC alias lists, and the node's own recorded state. */
  datatype Site = Site(
    self: Node,
    vip: string,
    holder: Option<Node>,
    mounted: bool,
    running: bool,
    mine: seq<string>,
    peers: seq<string>,
    local: NodeState)

  datatype Did = Did(site: Site, reply: Reply)
  {
    predicate Raised() { reply != Returned }
  }

  /* ---------------- resource calls ---------------- */

  function Attach(s: Site, o: Outcome): Did {
    if s.holder == Some(s.self) && !o.blind then Did(s, Returned)
    else Did(if o.effect then s.(holder := Some(s.self)) else s, o.reply)
  }

  function Detach(s: Site, o: Outcome): Did {
    if s.holder != Some(s.self) || o.blind then Did(s, Returned)
    else Did(if o.effect then s.(holder := None) else s, o.reply)
  }

  function ForceDetachFromPeer(s: Site, o: Outcome): Did {
    if s.holder != Some(s.self.Peer()) || o.blind then Did(s, Returned)
    else Did(if o.effect then s.(holder := None) else s, o.reply)
  }

  /** Without the device the wait for it times out; `blind` stands for a stale mount. */
  function Mount(s: Site, o: Outcome): Did {
    if s.holder != Some(s.self) then Did(s, OtherError)
    else if s.mounted && !o.blind then Did(s, Returned)
    else Did(s.(mounted := o.effect), o.reply)
  }

  function Unmount(s: Site, o: Outcome): Did {
    if !s.mounted then Did(s, Returned)
    else Did(s.(mounted := !o.effect), o.reply)
  }

  function StartPostgres(s: Site, o: Outcome): Did {
    if s.running && !o.blind then Did(s, Returned)
    else Did(s.(running := s.running || o.effect), o.reply)
  }

  /** pg_ctl failing to stop the server is only logged, so this may return without effect. */
  function StopPostgres(s: Site, o: Outcome): Did {
    Did(s.(running := s.running && !o.effect), o.reply)
  }

  /** Killing the processes that use the mount may take PostgreSQL down and never raises. */
  function KillMountUsers(s: Site, o: Outcome): Did {
    Did(s.(running := s.running && !o.effect), Returned)
  }

  function ReleaseVip(s: Site, o: Outcome): Did {
    Did(if o.effect then s.(mine := Without(s.mine, s.vip)) else s, o.reply)
  }

  function ReleaseVipFromPeer(s: Site, o: Outcome): Did {
    if s.vip !in s.peers || o.blind then Did(s, Returned)
    else Did(if o.effect then s.(peers := Without(s.peers, s.vip)) else s, o.reply)
  }

  function AddVip(s: Site, o: Outcome): Did {
    Did(if o.effect then s.(mine := With(s.mine, s.vip)) else s, o.reply)
  }

  /* ---------------- recorded state ---------------- */

  function SetRole(s: Site, r: NodeRole): Site { s.(local := s.local.(role := r)) }
  function SetHealth(s: Site, h: NodeHealth): Site { s.(local := s.local.(health := h)) }
  function SetPg(s: Site, p: PgState): Site { s.(local := s.local.(pgState := p)) }
  function SetDisk(s: Site, k: DiskState): Site { s.(local := s.local.(diskState := k)) }

  function AsPrimary(s: Site): Site {
    s.(local := s.local.(role := NodeRole.Primary, diskState := AttachedRw, pgState := RunningPrimary,
                         health := Healthy))
  }

  function AsStandby(s: Site): Site {
    s.(local := s.local.(role := NodeRole.Standby, diskState := Detached, pgState := Stopped, health := Healthy))
  }

  /* ---------------- switchover, primary side ---------------- */

  datatype DemoteStep = PreCheck | VipRelease | PgStop | Umount | DetachDisk | SignalPeer | Demote

  const DEMOTE_STEPS: nat := 7

  function DemoteStepAt(pc: nat): DemoteStep {
    if pc == 0 then PreCheck
    else if pc == 1 then VipRelease
    else if pc == 2 then PgStop
    else if pc == 3 then Umount
    else if pc == 4 then DetachDisk
    else if pc == 5 then SignalPeer
    else Demote
  }

  function DemoteCall(s: Site, step: DemoteStep, o: Outcome): Did {
    match step
    case PreCheck => Did(s, o.reply)
    case VipRelease => ReleaseVip(s, o)
    case PgStop =>
      var d := StopPostgres(s, o);
      if d.Raised() then d else d.(site := SetPg(d.site, Stopped))
    case Umount => Unmount(s, o)
    case DetachDisk =>
      var d := Detach(s, o);
      if d.Raised() then d else d.(site := SetDisk(d.site, Detached))
    case SignalPeer => Did(s, o.reply)
    case Demote => Did(SetHealth(SetRole(s, NodeRole.Standby), Healthy), Returned)
  }

  /* ---------------- switchover, standby side ---------------- */

  /** VIP is two calls in the source, kept apart here so that the peer can act in between. */
  datatype PromoteStep = AttachDisk | MountDisk | PgStart | VipFree | VipAdd | Promote

  const PROMOTE_STEPS: nat := 6

  function PromoteStepAt(pc: nat): PromoteStep {
    if pc == 0 then AttachDisk
    else if pc == 1 then MountDisk
    else if pc == 2 then PgStart
    else if pc == 3 then VipFree
    else if pc == 4 then VipAdd
    else Promote
  }

  /** How many entries the `completed` list holds when the call at pc raises. */
  function CompletedBefore(pc: nat): nat {
    if pc <= 3 then pc else pc - 1
  }

  /** `unchecked`: the query for the current holder failed and answered "nobody". */
  function PromoteCall(s: Site, step: PromoteStep, unchecked: bool, o: Outcome): Did {
    match step
    case AttachDisk =>
      if s.holder == Some(s.self.Peer()) && !unchecked then Did(s, RuntimeError)
      else
        var d := Attach(s, o);
        if d.Raised() then d else d.(site := SetDisk(d.site, AttachedRw))
    case MountDisk => Mount(s, o)
    case PgStart =>
      var d := StartPostgres(s, o);
      if d.Raised() then d else d.(site := SetPg(d.site, RunningPrimary))
    case VipFree => ReleaseVipFromPeer(s, o)
    case VipAdd => AddVip(s, o)
    case Promote => Did(SetHealth(SetRole(s, NodeRole.Primary), Healthy), Returned)
  }

  /** Undo the k-th completed promotion step, counting from 1: ATTACH, MOUNT, PG_START, VIP. */
  function UndoCall(s: Site, k: nat, o: Outcome): Did {
    if k == 4 then ReleaseVip(s, o)
    else if k == 3 then
      var d := StopPostgres(s, o);
      if d.Raised() then d else d.(site := SetPg(d.site, Stopped))
    else if k == 2 then Unmount(s, o)
    else
      var d := Detach(s, o);
      if d.Raised() then d else d.(site := SetDisk(d.site, Detached))
  }

  /* ---------------- self-demotion ---------------- */

  datatype SelfStep = SelfRelease | SelfStop | SelfKill | SelfUnmount | SelfDetach
                    | SelfRole | SelfDisk | SelfRest

  const SELF_STEPS: nat := 8

  function SelfStepAt(pc: nat): SelfStep {
    if pc == 0 then SelfRelease
    else if pc == 1 then SelfStop
    else if pc == 2 then SelfKill
    else if pc == 3 then SelfUnmount
    else if pc == 4 then SelfDetach
    else if pc == 5 then SelfRole
    else if pc == 6 then SelfDisk
    else SelfRest
  }

  function SelfCall(s: Site, step: SelfStep, o: Outcome): Did {
    match step
    case SelfRelease => ReleaseVip(s, o)
    case SelfStop => StopPostgres(s, o)
    case SelfKill => KillMountUsers(s, o)
    case SelfUnmount => Unmount(s, o)
    case SelfDetach => Detach(s, o)
    case SelfRole => Did(SetRole(s, NodeRole.Standby), Returned)
    case SelfDisk => Did(SetDisk(s, Detached), Returned)
    case SelfRest => Did(SetHealth(SetPg(s, Stopped), Healthy), Returned)
  }

  /* ---------------- automatic failover ---------------- */

  datatype FailStep = FoVerify | FoFence | FoWait | FoAttach | FoMount | FoPgStart | FoVipFree | FoVipAdd | FoPromote

  const FAIL_STEPS: nat := 9
  const FIRST_UNSKIPPED: nat := 3

  function FailStepAt(pc: nat): FailStep {
    if pc == 0 then FoVerify
    else if pc == 1 then FoFence
    else if pc == 2 then FoWait
    else if pc == 3 then FoAttach
    else if pc == 4 then FoMount
    else if pc == 5 then FoPgStart
    else if pc == 6 then FoVipFree
    else if pc == 7 then FoVipAdd
    else FoPromote
  }

  function FailCall(s: Site, step: FailStep, o: Outcome): Did {
    match step
    case FoVerify => Did(s, o.reply)
    case FoFence => ForceDetachFromPeer(s, o)
    case FoWait => Did(s, Returned)
    case FoAttach =>
      var d := Attach(s, o);
      if d.Raised() then d else d.(site := SetDisk(d.site, AttachedRw))
    case FoMount => Mount(s, o)
    case FoPgStart =>
      var d := StartPostgres(s, o);
      if d.Raised() then d else d.(site := SetPg(d.site, RunningPrimary))
    case FoVipFree => ReleaseVipFromPeer(s, o)
    case FoVipAdd => AddVip(s, o)
    case FoPromote => Did(SetHealth(SetRole(s, NodeRole.Primary), Healthy), Returned)
  }

  /* ---------------- startup election ---------------- */

  datatype ElectStep = ElAttach | ElMount | ElPgStart | ElVipFree | ElVipAdd | ElSettle

  const ELECT_STEPS: nat := 6

  function ElectStepAt(pc: nat): ElectStep {
    if pc == 0 then ElAttach
    else if pc == 1 then ElMount
    else if pc == 2 then ElPgStart
    else if pc == 3 then ElVipFree
    else if pc == 4 then ElVipAdd
    else ElSettle
  }

  function ElectCall(s: Site, step: ElectStep, o: Outcome): Did {
    match step
    case ElAttach => Attach(s, o)
    case ElMount => Mount(s, o)
    case ElPgStart => StartPostgres(s, o)
    case ElVipFree => ReleaseVipFromPeer(s, o)
    case ElVipAdd => AddVip(s, o)
    case ElSettle => Did(AsPrimary(s), Returned)
  }
}
