/** The disk and network managers as objects: what their calls change lives outside the daemon, in the cloud and on
    this machine, and is kept here. Each call is given the outcome the environment chose for it. */
module Resources {
  import opened Basics
  import opened Calls
  import opened LocalNodes
  import Aliases

  class Managers {
    const self: Node
    const vip: string
    var holder: Option<Node>
    var mounted: bool
    var running: bool
    var mine: seq<string>
    var peers: seq<string>

    /** This node's view, with the recorded state of `local`. */
    ghost function View(local: LocalNode): Site
      reads this, local
    {
      Site(self, vip, holder, mounted, running, mine, peers, local.state)
    }

    constructor (self: Node, vip: string, holder: Option<Node>, mounted: bool, running: bool,
                 mine: seq<string>, peers: seq<string>)
      ensures this.self == self && this.vip == vip && this.holder == holder && this.mounted == mounted
      ensures this.running == running && this.mine == mine && this.peers == peers
    {
      this.self, this.vip, this.holder, this.mounted := self, vip, holder, mounted;
      this.running, this.mine, this.peers := running, mine, peers;
    }

    /** The holder of the disk, or nobody when the query fails. */
    method CurrentRwHolder(blind: bool) returns (h: Option<Node>)
      ensures h == if blind then None else holder
    {
      h := if blind then None else holder;
    }

    method AttachDiskRw(o: Outcome, ghost local: LocalNode) returns (r: Reply)
      modifies this
      ensures Did(View(local), r) == Attach(old(View(local)), o)
    {
      var h := CurrentRwHolder(o.blind);
      if h == Some(self) {
        return Returned;
      }
      if o.effect {
        holder := Some(self);
      }
      r := o.reply;
    }

    method DetachDisk(o: Outcome, ghost local: LocalNode) returns (r: Reply)
      modifies this
      ensures Did(View(local), r) == Detach(old(View(local)), o)
    {
      if holder != Some(self) || o.blind {
        return Returned;
      }
      if o.effect {
        holder := None;
      }
      r := o.reply;
    }

    method ForceDetach(o: Outcome, ghost local: LocalNode) returns (r: Reply)
      modifies this
      ensures Did(View(local), r) == ForceDetachFromPeer(old(View(local)), o)
    {
      if holder != Some(self.Peer()) || o.blind {
        return Returned;
      }
      if o.effect {
        holder := None;
      }
      r := o.reply;
    }

    method MountDisk(o: Outcome, ghost local: LocalNode) returns (r: Reply)
      modifies this
      ensures Did(View(local), r) == Mount(old(View(local)), o)
    {
      if holder != Some(self) {
        return OtherError;
      }
      if mounted && !o.blind {
        return Returned;
      }
      mounted := o.effect;
      r := o.reply;
    }

    method UnmountDisk(o: Outcome, ghost local: LocalNode) returns (r: Reply)
      modifies this
      ensures Did(View(local), r) == Unmount(old(View(local)), o)
    {
      if !mounted {
        return Returned;
      }
      mounted := !o.effect;
      r := o.reply;
    }

    method StartPg(o: Outcome, ghost local: LocalNode) returns (r: Reply)
      modifies this
      ensures Did(View(local), r) == StartPostgres(old(View(local)), o)
    {
      if running && !o.blind {
        return Returned;
      }
      if o.effect {
        running := true;
      }
      r := o.reply;
    }

    method StopPg(o: Outcome, ghost local: LocalNode) returns (r: Reply)
      modifies this
      ensures Did(View(local), r) == StopPostgres(old(View(local)), o)
    {
      if o.effect {
        running := false;
      }
      r := o.reply;
    }

    method KillUsers(o: Outcome, ghost local: LocalNode)
      modifies this
      ensures View(local) == KillMountUsers(old(View(local)), o).site
    {
      if o.effect {
        running := false;
      }
    }

    method DropVip(o: Outcome, ghost local: LocalNode) returns (r: Reply)
      modifies this
      ensures Did(View(local), r) == ReleaseVip(old(View(local)), o)
    {
      if o.effect {
        mine := Aliases.Without(mine, vip);
      }
      r := o.reply;
    }

    method FreeVipFromPeer(o: Outcome, ghost local: LocalNode) returns (r: Reply)
      modifies this
      ensures Did(View(local), r) == ReleaseVipFromPeer(old(View(local)), o)
    {
      if vip !in peers || o.blind {
        return Returned;
      }
      if o.effect {
        peers := Aliases.Without(peers, vip);
      }
      r := o.reply;
    }

    method TakeVip(o: Outcome, ghost local: LocalNode) returns (r: Reply)
      modifies this
      ensures Did(View(local), r) == AddVip(old(View(local)), o)
    {
      if o.effect {
        mine := Aliases.With(mine, vip);
      }
      r := o.reply;
    }
  }
}
