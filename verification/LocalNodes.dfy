/** cluster/node.py: the container for a node's own recorded state. */
module LocalNodes {
  import opened Models

  class LocalNode {
    var state: NodeState

    constructor (name: string, now: real)
      ensures state == InitialState(name).(lastHeartbeatTs := now)
    {
      state := InitialState(name).(lastHeartbeatTs := now);
    }

    method SetRole(role: NodeRole)
      modifies this
      ensures state == old(state).(role := role)
    {
      state := state.(role := role);
    }

    method SetHealth(health: NodeHealth)
      modifies this
      ensures state == old(state).(health := health)
    {
      state := state.(health := health);
    }

    method SetPgState(pgState: PgState)
      modifies this
      ensures state == old(state).(pgState := pgState)
    {
      state := state.(pgState := pgState);
    }

    method SetDiskState(diskState: DiskState)
      modifies this
      ensures state == old(state).(diskState := diskState)
    {
      state := state.(diskState := diskState);
    }

    /** A copy: later setters do not reach it. */
    method Snapshot() returns (s: NodeState)
      ensures s == state
    {
      s := state;
    }

    predicate IsPrimary()
      reads this
    {
      state.role == NodeRole.Primary
    }

    predicate IsStandby()
      reads this
    {
      state.role == NodeRole.Standby
    }
  }
}
