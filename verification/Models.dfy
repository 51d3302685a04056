/** models.py: the enumerations, the node state, and the heartbeat message with its dictionary form. */
module Models {
  import opened Basics

  datatype NodeRole = Primary | Standby | Unknown
  {
    function Value(): string {
      match this
      case Primary => "primary"
      case Standby => "standby"
      case Unknown => "unknown"
    }

    static function Parse(s: string): Option<NodeRole> {
      if s == "primary" then Some(Primary)
      else if s == "standby" then Some(Standby)
      else if s == "unknown" then Some(NodeRole.Unknown)
      else None
    }
  }

  datatype NodeHealth = Healthy | Degraded | Failed | Fenced | Unknown
  {
    function Value(): string {
      match this
      case Healthy => "healthy"
      case Degraded => "degraded"
      case Failed => "failed"
      case Fenced => "fenced"
      case Unknown => "unknown"
    }

    static function Parse(s: string): Option<NodeHealth> {
      if s == "healthy" then Some(Healthy)
      else if s == "degraded" then Some(Degraded)
      else if s == "failed" then Some(Failed)
      else if s == "fenced" then Some(Fenced)
      else if s == "unknown" then Some(NodeHealth.Unknown)
      else None
    }
  }

  datatype PgState = RunningPrimary | RunningStandby | Stopped | Starting | Stopping | Crashed | Unknown
  {
    function Value(): string {
      match this
      case RunningPrimary => "running_primary"
      case RunningStandby => "running_standby"
      case Stopped => "stopped"
      case Starting => "starting"
      case Stopping => "stopping"
      case Crashed => "crashed"
      case Unknown => "unknown"
    }

    static function Parse(s: string): Option<PgState> {
      if s == "running_primary" then Some(RunningPrimary)
      else if s == "running_standby" then Some(RunningStandby)
      else if s == "stopped" then Some(Stopped)
      else if s == "starting" then Some(Starting)
      else if s == "stopping" then Some(Stopping)
      else if s == "crashed" then Some(Crashed)
      else if s == "unknown" then Some(PgState.Unknown)
      else None
    }
  }

  datatype DiskState = AttachedRw | AttachedRo | Detached | Unknown
  {
    function Value(): string {
      match this
      case AttachedRw => "attached_rw"
      case AttachedRo => "attached_ro"
      case Detached => "detached"
      case Unknown => "unknown"
    }

    static function Parse(s: string): Option<DiskState> {
      if s == "attached_rw" then Some(AttachedRw)
      else if s == "attached_ro" then Some(AttachedRo)
      else if s == "detached" then Some(Detached)
      else if s == "unknown" then Some(DiskState.Unknown)
      else None
    }
  }

  /** Mutable state of one node, as a value; copying the value is the source's shallow copy. */
  datatype NodeState = NodeState(
    name: string,
    role: NodeRole,
    health: NodeHealth,
    pgState: PgState,
    diskState: DiskState,
    lastHeartbeatTs: real,
    heartbeatSeq: int)

  function InitialState(name: string): NodeState {
    NodeState(name, NodeRole.Unknown, NodeHealth.Unknown, PgState.Unknown, DiskState.Unknown, 0.0, 0)
  }

  datatype HeartbeatMsg = HeartbeatMsg(
    node: string,
    role: NodeRole,
    seq_: int,
    pgState: PgState,
    diskState: DiskState,
    nodeHealth: NodeHealth,
    ts: real)

  /** A JSON scalar, as far as a heartbeat uses them. */
  datatype Json = JStr(s: string) | JInt(i: int) | JNum(r: real)

  type Dict = map<string, Json>

  function ToDict(m: HeartbeatMsg): Dict {
    map["node" := JStr(m.node),
        "role" := JStr(m.role.Value()),
        "seq" := JInt(m.seq_),
        "pg_state" := JStr(m.pgState.Value()),
        "disk_state" := JStr(m.diskState.Value()),
        "node_health" := JStr(m.nodeHealth.Value()),
        "ts" := JNum(m.ts)]
  }

  function TruncateToInt(r: real): int {
    if r >= 0.0 then r.Floor else -((-r).Floor)
  }

  function StringAt(d: Dict, key: string): Option<string> {
    if key in d && d[key].JStr? then Some(d[key].s) else None
  }

  function IntAt(d: Dict, key: string): Option<int> {
    if key !in d then None
    else match d[key]
      case JInt(i) => Some(i)
      case JNum(r) => Some(TruncateToInt(r))
      case JStr(_) => None
  }

  function RealAt(d: Dict, key: string): Option<real> {
    if key !in d then None
    else match d[key]
      case JInt(i) => Some(i as real)
      case JNum(r) => Some(r)
      case JStr(_) => None
  }

  function EnumAt<E>(d: Dict, key: string, parse: string -> Option<E>): Option<E> {
    match StringAt(d, key)
    case None => None
    case Some(s) => parse(s)
  }

  function FromDict(d: Dict): Result<HeartbeatMsg> {
    var node := StringAt(d, "node");
    var role := EnumAt(d, "role", s => NodeRole.Parse(s));
    var seq_ := IntAt(d, "seq");
    var pg := EnumAt(d, "pg_state", s => PgState.Parse(s));
    var disk := EnumAt(d, "disk_state", s => DiskState.Parse(s));
    var health := EnumAt(d, "node_health", s => NodeHealth.Parse(s));
    var ts := RealAt(d, "ts");
    if node.None? || role.None? || seq_.None? || pg.None? || disk.None? || health.None? || ts.None?
    then Err("malformed heartbeat")
    else Ok(HeartbeatMsg(node.value, role.value, seq_.value, pg.value, disk.value, health.value, ts.value))
  }

  lemma RoleRoundTrip(r: NodeRole)
    ensures NodeRole.Parse(r.Value()) == Some(r)
  {
    assert "standby"[0] == 's' && "primary"[0] == 'p' && "unknown"[0] == 'u';
  }

  lemma HealthRoundTrip(h: NodeHealth)
    ensures NodeHealth.Parse(h.Value()) == Some(h)
  {
    assert "healthy"[0] == 'h' && "failed"[1] == 'a' && "fenced"[1] == 'e' && "unknown"[0] == 'u';
  }

  lemma PgRoundTrip(p: PgState)
    ensures PgState.Parse(p.Value()) == Some(p)
  {
    assert "running_primary"[8] == 'p' && "running_standby"[8] == 's';
    assert "stopped"[0] == 's' && "crashed"[0] == 'c' && "unknown"[0] == 'u';
    assert "starting"[2] == 'a' && "stopping"[2] == 'o';
  }

  lemma DiskRoundTrip(k: DiskState)
    ensures DiskState.Parse(k.Value()) == Some(k)
  {
    assert "attached_rw"[10] == 'w' && "attached_ro"[10] == 'o';
  }

  /** What the receiver decodes is the message the sender encoded, for every message. */
  lemma HeartbeatRoundTrip(m: HeartbeatMsg)
    ensures FromDict(ToDict(m)) == Ok(m)
  {
    RoleRoundTrip(m.role);
    HealthRoundTrip(m.nodeHealth);
    PgRoundTrip(m.pgState);
    DiskRoundTrip(m.diskState);
    assert "node"[0] == 'n' && "role"[0] == 'r';
    assert |"seq"| == 3 && |"ts"| == 2 && |"pg_state"| == 8 && |"disk_state"| == 10 && |"node_health"| == 11;
  }

  lemma RoleParse(s: string, r: NodeRole)
    ensures NodeRole.Parse(s) == Some(r) <==> s == r.Value()
  {
    RoleRoundTrip(r);
  }

  lemma HealthParse(s: string, h: NodeHealth)
    ensures NodeHealth.Parse(s) == Some(h) <==> s == h.Value()
  {
    HealthRoundTrip(h);
  }

  lemma PgParse(s: string, p: PgState)
    ensures PgState.Parse(s) == Some(p) <==> s == p.Value()
  {
    PgRoundTrip(p);
  }

  lemma DiskParse(s: string, k: DiskState)
    ensures DiskState.Parse(s) == Some(k) <==> s == k.Value()
  {
    DiskRoundTrip(k);
  }

  predicate HasString(d: Dict, key: string, s: string) {
    key in d && d[key] == JStr(s)
  }

  /** An integer, or a number whose fraction is cut off. */
  predicate HasInt(d: Dict, key: string, i: int) {
    && key in d
    && match d[key]
       case JInt(j) => i == j
       case JNum(r) => if r >= 0.0 then i as real <= r < i as real + 1.0 else i as real - 1.0 < r <= i as real
       case JStr(_) => false
  }

  predicate HasReal(d: Dict, key: string, r: real) {
    key in d && (d[key] == JNum(r) || (d[key].JInt? && d[key].i as real == r))
  }

  /** The dictionary says exactly this message, under these keys and with these values; other keys do not matter. */
  predicate Says(d: Dict, m: HeartbeatMsg) {
    && HasString(d, "node", m.node)
    && HasString(d, "role", m.role.Value())
    && HasInt(d, "seq", m.seq_)
    && HasString(d, "pg_state", m.pgState.Value())
    && HasString(d, "disk_state", m.diskState.Value())
    && HasString(d, "node_health", m.nodeHealth.Value())
    && HasReal(d, "ts", m.ts)
  }

  lemma IntExactly(d: Dict, key: string, i: int)
    ensures IntAt(d, key) == Some(i) <==> HasInt(d, key, i)
  {}

  /** Decoding yields a message exactly when the dictionary says it, and nothing else decodes: no key is optional, and
      no unknown value of an enumeration is let through. */
  lemma DecodesExactly(d: Dict, m: HeartbeatMsg)
    ensures FromDict(d) == Ok(m) <==> Says(d, m)
  {
    hide NodeRole.Parse, NodeHealth.Parse, PgState.Parse, DiskState.Parse;
    hide NodeRole.Value, NodeHealth.Value, PgState.Value, DiskState.Value, IntAt, HasInt;
    IntExactly(d, "seq", m.seq_);
    if "role" in d && d["role"].JStr? { RoleParse(d["role"].s, m.role); }
    if "node_health" in d && d["node_health"].JStr? { HealthParse(d["node_health"].s, m.nodeHealth); }
    if "pg_state" in d && d["pg_state"].JStr? { PgParse(d["pg_state"].s, m.pgState); }
    if "disk_state" in d && d["disk_state"].JStr? { DiskParse(d["disk_state"].s, m.diskState); }
  }
}
