/** ha/switchover.py: the planned switchover on either side, run by one thread without interference. */
module Switchover {
  import opened Basics
  import opened Models
  import opened Calls
  import opened LocalNodes
  import opened Resources

  /* ---------------- specification ---------------- */

  datatype Executed = Executed(site: Site, ok: bool)

  function DemoteRun(s: Site, pc: nat, calls: DemoteStep -> Outcome): Executed
    requires pc <= DEMOTE_STEPS
    decreases DEMOTE_STEPS - pc
  {
    if pc == DEMOTE_STEPS then Executed(s, true)
    else
      var d := DemoteCall(s, DemoteStepAt(pc), calls(DemoteStepAt(pc)));
      if d.Raised() then Executed(d.site, false) else DemoteRun(d.site, pc + 1, calls)
  }

  /** What the environment answers during one promotion: per call, per start attempt, per undo call. */
  datatype PromoteScript = PromoteScript(
    unchecked: bool,
    call: PromoteStep -> Outcome,
    start: nat -> Outcome,
    undo: nat -> Outcome)

  const MAX_START_ATTEMPTS: nat := 3

  datatype Started = Started(did: Did, calls: nat)

  /** pg_ctl start is tried again after a RuntimeError, and after nothing else. */
  function StartTries(s: Site, start: nat -> Outcome, attempt: nat): Started
    requires 1 <= attempt <= MAX_START_ATTEMPTS
    decreases MAX_START_ATTEMPTS - attempt
  {
    var d := StartPostgres(s, start(attempt));
    if !d.Raised() then Started(d.(site := SetPg(d.site, RunningPrimary)), 1)
    else if d.reply != OtherError && attempt < MAX_START_ATTEMPTS then
      var rest := StartTries(d.site, start, attempt + 1);
      Started(rest.did, rest.calls + 1)
    else Started(d, 1)
  }

  function StartRetry(s: Site, start: nat -> Outcome, attempt: nat): Did
    requires 1 <= attempt <= MAX_START_ATTEMPTS
  {
    StartTries(s, start, attempt).did
  }

  /* ---------------- repeated calls ---------------- */

  /** Whether what a repeated call is to bring about is there before attempt i, given whether it was there at first: an
      attempt that raised may have brought it about. */
  predicate DoneBefore(already: bool, tries: nat -> Outcome, i: nat) {
    already || (i > 1 && (tries(i - 1).effect || DoneBefore(already, tries, i - 1)))
  }

  /** How attempt i comes back: at once when its look finds the thing there. */
  function TryReply(already: bool, tries: nat -> Outcome, i: nat): Reply {
    if DoneBefore(already, tries, i) && !tries(i).blind then Returned else tries(i).reply
  }

  /** The first attempt from i on that is the last allowed or comes back with an answer that is not to be repeated. */
  function LastTry(already: bool, tries: nat -> Outcome, again: set<Reply>, limit: nat, i: nat): (k: nat)
    requires 1 <= i <= limit
    ensures i <= k <= limit
    ensures forall j :: i <= j < k ==> TryReply(already, tries, j) in again
    ensures k == limit || TryReply(already, tries, k) !in again
    decreases limit - i
  {
    if i < limit && TryReply(already, tries, i) in again then LastTry(already, tries, again, limit, i + 1) else i
  }

  function PromoteOne(s: Site, pc: nat, script: PromoteScript): Did {
    var step := PromoteStepAt(pc);
    if step == PgStart then StartRetry(s, script.start, 1)
    else PromoteCall(s, step, script.unchecked, script.call(step))
  }

  function UndoRun(s: Site, left: nat, undo: nat -> Outcome): Site
    decreases left
  {
    if left == 0 then s else UndoRun(UndoCall(s, left, undo(left)).site, left - 1, undo)
  }

  function PromoteRun(s: Site, pc: nat, script: PromoteScript): Executed
    requires pc <= PROMOTE_STEPS
    decreases PROMOTE_STEPS - pc
  {
    if pc == PROMOTE_STEPS then Executed(s, true)
    else
      var d := PromoteOne(s, pc, script);
      if d.Raised() then Executed(UndoRun(d.site, CompletedBefore(pc), script.undo), false)
      else PromoteRun(d.site, pc + 1, script)
  }

  /* ---------------- the engine ---------------- */

  datatype StepName = StepAttach | StepMount | StepPgStart | StepVip | StepPromote

  const PROMOTION: seq<StepName> := [StepAttach, StepMount, StepPgStart, StepVip, StepPromote]

  /** Where a named step begins among the single calls. */
  function FirstCall(i: nat): nat {
    if i <= 3 then i else i + 1
  }

  class SwitchoverEngine {
    const local: LocalNode
    const managers: Managers

    constructor (local: LocalNode, managers: Managers)
      ensures this.local == local && this.managers == managers
    {
      this.local, this.managers := local, managers;
    }

    ghost function Now(): Site
      reads this, local, managers
    {
      managers.View(local)
    }

    method DoDemote(step: DemoteStep, o: Outcome) returns (r: Reply)
      modifies local, managers
      ensures Did(Now(), r) == DemoteCall(old(Now()), step, o)
    {
      match step
      case PreCheck => r := o.reply;
      case VipRelease => r := managers.DropVip(o, local);
      case PgStop =>
        r := managers.StopPg(o, local);
        if r == Returned { local.SetPgState(Stopped); }
      case Umount => r := managers.UnmountDisk(o, local);
      case DetachDisk =>
        r := managers.DetachDisk(o, local);
        if r == Returned { local.SetDiskState(Detached); }
      case SignalPeer => r := o.reply;
      case Demote =>
        local.SetRole(NodeRole.Standby);
        local.SetHealth(Healthy);
        r := Returned;
    }

    method ExecuteAsPrimary(calls: DemoteStep -> Outcome) returns (ok: bool)
      modifies local, managers
      ensures old(local.IsPrimary()) ==> Executed(Now(), ok) == DemoteRun(old(Now()), 0, calls)
      ensures !old(local.IsPrimary()) ==> !ok && Now() == old(Now())
    {
      if !local.IsPrimary() {
        return false;
      }
      var pc := 0;
      while pc < DEMOTE_STEPS
        invariant pc <= DEMOTE_STEPS
        invariant DemoteRun(Now(), pc, calls) == DemoteRun(old(Now()), 0, calls)
      {
        var r := DoDemote(DemoteStepAt(pc), calls(DemoteStepAt(pc)));
        if r != Returned {
          return false;
        }
        pc := pc + 1;
      }
      ok := true;
    }

    method StartWithRetry(start: nat -> Outcome) returns (r: Reply, calls: nat)
      modifies local, managers
      ensures Started(Did(Now(), r), calls) == StartTries(old(Now()), start, 1)
    {
      hide StartPostgres;
      var attempt := 1;
      calls := 0;
      while true
        invariant 1 <= attempt <= MAX_START_ATTEMPTS
        invariant var t := StartTries(Now(), start, attempt);
                  Started(t.did, calls + t.calls) == StartTries(old(Now()), start, 1)
        decreases MAX_START_ATTEMPTS - attempt
      {
        r := managers.StartPg(start(attempt), local);
        calls := calls + 1;
        if r == Returned {
          local.SetPgState(RunningPrimary);
          return;
        }
        if r == OtherError || attempt == MAX_START_ATTEMPTS {
          return;
        }
        attempt := attempt + 1;
      }
    }

    method DoPromote(name: StepName, script: PromoteScript) returns (r: Reply)
      modifies local, managers
      ensures name == StepAttach ==> Did(Now(), r) == PromoteOne(old(Now()), 0, script)
      ensures name == StepMount ==> Did(Now(), r) == PromoteOne(old(Now()), 1, script)
      ensures name == StepPgStart ==> Did(Now(), r) == PromoteOne(old(Now()), 2, script)
      ensures name == StepVip ==>
              var d := PromoteOne(old(Now()), 3, script);
              Did(Now(), r) == if d.Raised() then d else PromoteOne(d.site, 4, script)
      ensures name == StepPromote ==> Did(Now(), r) == PromoteOne(old(Now()), 5, script)
    {
      match name
      case StepAttach =>
        var h := managers.CurrentRwHolder(script.unchecked);
        if h == Some(managers.self.Peer()) {
          return RuntimeError;
        }
        r := managers.AttachDiskRw(script.call(AttachDisk), local);
        if r == Returned { local.SetDiskState(AttachedRw); }
      case StepMount => r := managers.MountDisk(script.call(MountDisk), local);
      case StepPgStart =>
        var tries;
        r, tries := StartWithRetry(script.start);
      case StepVip =>
        r := managers.FreeVipFromPeer(script.call(VipFree), local);
        if r == Returned {
          r := managers.TakeVip(script.call(VipAdd), local);
        }
      case StepPromote =>
        local.SetRole(NodeRole.Primary);
        local.SetHealth(Healthy);
        r := Returned;
    }

    /** Undo in reverse; an undo call that raises does not stop the others. */
    method RollbackPromotion(completed: seq<StepName>, undo: nat -> Outcome)
      requires |completed| <= 4 && completed == PROMOTION[..|completed|]
      modifies local, managers
      ensures Now() == UndoRun(old(Now()), |completed|, undo)
    {
      var k := |completed|;
      while k > 0
        invariant 0 <= k <= |completed|
        invariant UndoRun(Now(), k, undo) == UndoRun(old(Now()), |completed|, undo)
      {
        assert completed[k - 1] == PROMOTION[k - 1];
        match completed[k - 1] {
          case StepPgStart =>
            var r := managers.StopPg(undo(k), local);
            if r == Returned { local.SetPgState(Stopped); }
          case StepMount =>
            var r := managers.UnmountDisk(undo(k), local);
          case StepAttach =>
            var r := managers.DetachDisk(undo(k), local);
            if r == Returned { local.SetDiskState(Detached); }
          case StepVip =>
            var r := managers.DropVip(undo(k), local);
          case StepPromote =>
        }
        k := k - 1;
      }
    }

    method ExecuteAsStandby(script: PromoteScript) returns (ok: bool)
      modifies local, managers
      ensures old(local.IsStandby()) ==> Executed(Now(), ok) == PromoteRun(old(Now()), 0, script)
      ensures !old(local.IsStandby()) ==> !ok && Now() == old(Now())
    {
      hide PromoteOne, UndoRun;
      if !local.IsStandby() {
        return false;
      }
      var completed: seq<StepName> := [];
      var i := 0;
      while i < |PROMOTION|
        invariant 0 <= i <= |PROMOTION| && completed == PROMOTION[..i]
        invariant PromoteRun(Now(), FirstCall(i), script) == PromoteRun(old(Now()), 0, script)
      {
        var r := DoPromote(PROMOTION[i], script);
        if r != Returned {
          RollbackPromotion(completed, script.undo);
          return false;
        }
        completed := completed + [PROMOTION[i]];
        i := i + 1;
      }
      ok := true;
    }
  }
}
