/** What each engine's execution comes to, read off the environment's answers. For every engine a list says of each
    call, in the engine's order, whether it comes back, given when it skips; the first that does not is where the engine
    stops; and a site says what the calls made up to there leave. None of this uses the functions that the engines are
    proved against, and the theorems say that those agree with it on every input. */
module Outcomes {
  import opened Basics
  import opened Models
  import opened Aliases
  import opened Calls
  import opened Switchover
  import opened Failover
  import opened Election
  import opened Daemon
  import opened Monitors
  import opened Recovery

  /** The first position from i on that is false, or the length. */
  function FirstFalse(xs: seq<bool>, i: nat): (k: nat)
    requires i <= |xs|
    ensures i <= k <= |xs| && (forall j :: i <= j < k ==> xs[j]) && (k < |xs| ==> !xs[k])
    decreases |xs| - i
  {
    if i < |xs| && xs[i] then FirstFalse(xs, i + 1) else i
  }

  predicate ComesBack(o: Outcome) { o.reply == Returned }

  /* ---------------- starting PostgreSQL ---------------- */

  function LastStart(up: bool, start: nat -> Outcome, i: nat): (k: nat)
    requires 1 <= i <= 3
    ensures i <= k <= 3
    ensures forall j :: i <= j < k ==> TryReply(up, start, j) in {RuntimeError, Busy}
    ensures k == 3 || TryReply(up, start, k) !in {RuntimeError, Busy}
  {
    LastTry(up, start, {RuntimeError, Busy}, 3, i)
  }

  function StartReply(up: bool, start: nat -> Outcome): Reply {
    TryReply(up, start, LastStart(up, start, 1))
  }

  /** The server runs after the attempts made. */
  predicate UpAfter(up: bool, start: nat -> Outcome) {
    DoneBefore(up, start, LastStart(up, start, 1) + 1)
  }

  function StartedBefore(s: Site, start: nat -> Outcome, i: nat): Site {
    s.(running := DoneBefore(s.running, start, i))
  }

  lemma StartOnce(s: Site, start: nat -> Outcome, i: nat)
    requires i >= 1
    ensures StartPostgres(StartedBefore(s, start, i), start(i))
         == Did(StartedBefore(s, start, i + 1), TryReply(s.running, start, i))
  {}

  lemma {:induction false} StartTriesFrom(s: Site, start: nat -> Outcome, i: nat)
    requires 1 <= i <= 3
    ensures var t := StartTries(StartedBefore(s, start, i), start, i);
            var k := LastStart(s.running, start, i); var r := TryReply(s.running, start, k);
            var u := StartedBefore(s, start, k + 1);
            t == Started(Did(if r == Returned then SetPg(u, RunningPrimary) else u, r), k - i + 1)
    decreases 3 - i
  {
    hide StartPostgres, StartedBefore, TryReply, DoneBefore;
    StartOnce(s, start, i);
    if i < 3 && TryReply(s.running, start, i) in {RuntimeError, Busy} {
      StartTriesFrom(s, start, i + 1);
    }
  }

  /** The first answer within three attempts that is not a RuntimeError decides: the start succeeds if and only if it
      is a return, no call is made after it, a timeout is not repeated, and three RuntimeErrors are three calls and a
      failure. The server runs after that if it ran before or an attempt that was made took effect, and is recorded as
      running only on success. */
  lemma StartTriesExactly(s: Site, start: nat -> Outcome)
    ensures var t := StartTries(s, start, 1);
            && t.calls == LastStart(s.running, start, 1)
            && t.did.reply == StartReply(s.running, start)
            && t.did.site == s.(running := UpAfter(s.running, start),
                                local := if StartReply(s.running, start) == Returned
                                         then s.local.(pgState := RunningPrimary) else s.local)
  {
    assert StartedBefore(s, start, 1) == s;
    StartTriesFrom(s, start, 1);
  }

  /* ---------------- undoing a promotion ---------------- */

  /** What undoing the first `left` named steps leaves: each effect, whichever calls raise. */
  function Undone(s: Site, left: nat, undo: nat -> Outcome): Site {
    s.(mine := if left >= 4 && undo(4).effect then Without(s.mine, s.vip) else s.mine,
       running := s.running && !(left >= 3 && undo(3).effect),
       mounted := s.mounted && !(left >= 2 && undo(2).effect),
       holder := if left >= 1 && s.holder == Some(s.self) && !undo(1).blind && undo(1).effect then None else s.holder,
       local := s.local.(
         pgState := if left >= 3 && ComesBack(undo(3)) then Stopped else s.local.pgState,
         diskState := if left >= 1 && (s.holder != Some(s.self) || undo(1).blind || ComesBack(undo(1))) then Detached
                      else s.local.diskState))
  }

  lemma UndoOnce(s: Site, left: nat, undo: nat -> Outcome)
    requires 1 <= left <= 4
    ensures Undone(UndoCall(s, left, undo(left)).site, left - 1, undo) == Undone(s, left, undo)
  {}

  lemma {:induction false} UndoRunExactly(s: Site, left: nat, undo: nat -> Outcome)
    requires left <= 4
    ensures UndoRun(s, left, undo) == Undone(s, left, undo)
    decreases left
  {
    hide UndoCall;
    if left > 0 {
      UndoOnce(s, left, undo);
      UndoRunExactly(UndoCall(s, left, undo(left)).site, left - 1, undo);
    }
  }

  /* ---------------- the switchover, primary side ---------------- */

  /** PRE_CHECK, VIP_RELEASE, PG_STOP, UMOUNT, DETACH, SIGNAL_PEER, DEMOTE. */
  function DemoteAnswers(s: Site, calls: DemoteStep -> Outcome): seq<bool> {
    [ComesBack(calls(PreCheck)),
     ComesBack(calls(VipRelease)),
     ComesBack(calls(PgStop)),
     !s.mounted || ComesBack(calls(Umount)),
     s.holder != Some(s.self) || calls(DetachDisk).blind || ComesBack(calls(DetachDisk)),
     ComesBack(calls(SignalPeer)),
     true]
  }

  /** After `made` calls, of which the first `done` came back. */
  function Demoted(s: Site, calls: DemoteStep -> Outcome, made: nat, done: nat): Site {
    s.(mine := if made > 1 && calls(VipRelease).effect then Without(s.mine, s.vip) else s.mine,
       running := s.running && !(made > 2 && calls(PgStop).effect),
       mounted := s.mounted && !(made > 3 && calls(Umount).effect),
       holder := if made > 4 && s.holder == Some(s.self) && !calls(DetachDisk).blind && calls(DetachDisk).effect
            then None
                 else s.holder,
       local := s.local.(
         pgState := if done > 2 then Stopped else s.local.pgState,
         diskState := if done > 4 then Detached else s.local.diskState,
         role := if done > 6 then NodeRole.Standby else s.local.role,
         health := if done > 6 then Healthy else s.local.health))
  }

  lemma DemoteOnce(s: Site, calls: DemoteStep -> Outcome, pc: nat)
    requires pc < 7
    ensures var d := DemoteCall(Demoted(s, calls, pc, pc), DemoteStepAt(pc), calls(DemoteStepAt(pc)));
            var back := DemoteAnswers(s, calls)[pc];
            d.site == Demoted(s, calls, pc + 1, if back then pc + 1 else pc) && (d.Raised() <==> !back)
  {}

  lemma {:induction false} DemoteFrom(s: Site, calls: DemoteStep -> Outcome, pc: nat)
    requires pc <= 7
    ensures var k := FirstFalse(DemoteAnswers(s, calls), pc);
            DemoteRun(Demoted(s, calls, pc, pc), pc, calls)
            == Executed(Demoted(s, calls, Min(k + 1, 7), k), k == 7)
    decreases 7 - pc
  {
    hide DemoteCall, Demoted, DemoteAnswers;
    assert |DemoteAnswers(s, calls)| == 7 by { SevenAnswers(s, calls); }
    if pc < 7 {
      DemoteOnce(s, calls, pc);
      if DemoteAnswers(s, calls)[pc] {
        DemoteFrom(s, calls, pc + 1);
      }
    }
  }

  lemma SevenAnswers(s: Site, calls: DemoteStep -> Outcome)
    ensures |DemoteAnswers(s, calls)| == 7
  {}

  /** The primary side stops at the first call that does not come back and succeeds if and only if there is none; what
      it leaves are the effects of the calls made and the records of those that came back. */
  lemma DemoteRunExactly(s: Site, calls: DemoteStep -> Outcome)
    ensures var k := FirstFalse(DemoteAnswers(s, calls), 0);
            DemoteRun(s, 0, calls) == Executed(Demoted(s, calls, Min(k + 1, 7), k), k == 7)
  {
    assert Demoted(s, calls, 0, 0) == s;
    DemoteFrom(s, calls, 0);
  }

  /* ---------------- self-demotion ---------------- */

  /** Every release is made, whichever of them raise, and then the record is corrected. */
  function SelfDemoted(s: Site, calls: SelfStep -> Outcome): Site {
    s.(mine := if calls(SelfRelease).effect then Without(s.mine, s.vip) else s.mine,
       running := s.running && !calls(SelfStop).effect && !calls(SelfKill).effect,
       mounted := s.mounted && !calls(SelfUnmount).effect,
       holder := if s.holder == Some(s.self) && !calls(SelfDetach).blind && calls(SelfDetach).effect then None
                 else s.holder,
       local := s.local.(role := NodeRole.Standby, diskState := Detached, pgState := Stopped, health := Healthy))
  }

  /** For every vector of replies: a release that raises stops none of the others. */
  lemma SelfRunExactly(s: Site, calls: SelfStep -> Outcome)
    ensures SelfRun(s, 0, calls) == SelfDemoted(s, calls)
  {
    var s1 := SelfCall(s, SelfRelease, calls(SelfRelease)).site;
    var s2 := SelfCall(s1, SelfStop, calls(SelfStop)).site;
    var s3 := SelfCall(s2, SelfKill, calls(SelfKill)).site;
    var s4 := SelfCall(s3, SelfUnmount, calls(SelfUnmount)).site;
    var s5 := SelfCall(s4, SelfDetach, calls(SelfDetach)).site;
    assert s5 == SelfDemoted(s, calls).(local := s.local);
    assert SelfRun(s5, 5, calls) == SelfDemoted(s, calls);
    assert SelfRun(s4, 4, calls) == SelfRun(s5, 5, calls);
    assert SelfRun(s3, 3, calls) == SelfRun(s4, 4, calls);
    assert SelfRun(s2, 2, calls) == SelfRun(s3, 3, calls);
    assert SelfRun(s1, 1, calls) == SelfRun(s2, 2, calls);
  }

  /** So when the VIP release, the stop or the kill, the unmount and the detach take effect, everything is given up,
      whatever raised. */
  lemma SelfDemotionReleases(s: Site, calls: SelfStep -> Outcome)
    requires calls(SelfRelease).effect && (calls(SelfStop).effect || calls(SelfKill).effect)
    requires calls(SelfUnmount).effect && calls(SelfDetach).effect && !calls(SelfDetach).blind
    ensures var t := SelfRun(s, 0, calls);
            !t.running && !t.mounted && t.holder != Some(s.self) && s.vip !in t.mine && t.peers == s.peers
  {
    SelfRunExactly(s, calls);
    WithoutSpec(s.mine, s.vip);
  }

  /** A pass of the main loop that self-demotes leaves that, with DEGRADED if the operating system is overloaded, the
      monitor off and the time stamp set. */
  lemma DemotingPassExactly(s: Site, mon: PgMon, active: bool, lastDemotionTs: real, budget: Budget, threshold: int,
                            around: Surroundings, calls: SelfStep -> Outcome, now: real, mono: real)
    ensures var p := PassRun(s, mon, active, lastDemotionTs, budget, threshold, around, calls, now, mono);
            p.demoted ==>
              && p.site == SetHealth(SelfDemoted(s, calls), if around.osDegraded then Degraded else Healthy)
              && !p.mon.active && p.mon.snapshot == None && p.mon.failCount == 0 && p.lastDemotionTs == now
  {
    hide SelfRun;
    var l := Refresh(mon, s.local, active || around.maintenance, threshold).local;
    SelfRunExactly(s.(local := l), calls);
  }

  /* ---------------- the switchover, standby side ---------------- */

  /** The disk is this node's after the attach of a promotion. */
  predicate PromoteHolds(s: Site, script: PromoteScript) {
    s.holder == Some(s.self)
         || ((s.holder != Some(s.self.Peer()) || script.unchecked) && script.call(AttachDisk).effect)
  }

  /** A call that finds what it is to bring about comes back at once. */
  predicate Skips(there: bool, o: Outcome) { there && !o.blind }

  /** ATTACH, MOUNT, PG_START, the two calls of VIP, PROMOTE. */
  function PromoteAnswers(s: Site, script: PromoteScript): seq<bool> {
    [(s.holder != Some(s.self.Peer()) || script.unchecked)
       && (Skips(s.holder == Some(s.self), script.call(AttachDisk)) || ComesBack(script.call(AttachDisk))),
     PromoteHolds(s, script) && (Skips(s.mounted, script.call(MountDisk)) || ComesBack(script.call(MountDisk))),
     StartReply(s.running, script.start) == Returned,
     s.vip !in s.peers || script.call(VipFree).blind || ComesBack(script.call(VipFree)),
     ComesBack(script.call(VipAdd)),
     true]
  }

  function Promoted(s: Site, script: PromoteScript, made: nat, done: nat): Site {
    s.(holder := if made > 0 && PromoteHolds(s, script) then Some(s.self) else s.holder,
       mounted := if made > 1 && PromoteHolds(s, script) && !Skips(s.mounted, script.call(MountDisk))
                  then script.call(MountDisk).effect else s.mounted,
       running := if made > 2 then UpAfter(s.running, script.start) else s.running,
       peers := if made > 3 && s.vip in s.peers && !script.call(VipFree).blind && script.call(VipFree).effect
                then Without(s.peers, s.vip) else s.peers,
       mine := if made > 4 && script.call(VipAdd).effect then Aliases.With(s.mine, s.vip) else s.mine,
       local := s.local.(
         diskState := if done > 0 then AttachedRw else s.local.diskState,
         pgState := if done > 2 then RunningPrimary else s.local.pgState,
         role := if done > 5 then NodeRole.Primary else s.local.role,
         health := if done > 5 then Healthy else s.local.health))
  }

  /** One call on, at pc: its site, and whether it came back. */
  predicate PromoteNext(s: Site, script: PromoteScript, pc: nat, d: Did)
    requires pc < 6
  {
    var back := PromoteAnswers(s, script)[pc];
    d.site == Promoted(s, script, pc + 1, if back then pc + 1 else pc) && (d.Raised() <==> !back)
  }

  lemma PromoteDisk(s: Site, script: PromoteScript)
    ensures PromoteNext(s, script, 0, PromoteOne(Promoted(s, script, 0, 0), 0, script))
    ensures PromoteNext(s, script, 1, PromoteOne(Promoted(s, script, 1, 1), 1, script))
  {}

  lemma PromoteStart(s: Site, script: PromoteScript)
    ensures PromoteNext(s, script, 2, PromoteOne(Promoted(s, script, 2, 2), 2, script))
  {
    hide StartTries, TryReply, DoneBefore, LastStart;
    StartTriesExactly(Promoted(s, script, 2, 2), script.start);
  }

  lemma PromoteVip(s: Site, script: PromoteScript, pc: nat)
    requires 3 <= pc < 6
    ensures PromoteNext(s, script, pc, PromoteOne(Promoted(s, script, pc, pc), pc, script))
  {
    hide StartReply, UpAfter, PromoteHolds, StartTries, Skips;
  }

  lemma PromoteOnce(s: Site, script: PromoteScript, pc: nat)
    requires pc < 6
    ensures PromoteNext(s, script, pc, PromoteOne(Promoted(s, script, pc, pc), pc, script))
  {
    hide PromoteNext, PromoteOne, Promoted;
    if pc < 2 {
      PromoteDisk(s, script);
    } else if pc == 2 {
      PromoteStart(s, script);
    } else {
      PromoteVip(s, script, pc);
    }
  }

  lemma {:induction false} PromoteFrom(s: Site, script: PromoteScript, pc: nat)
    requires pc <= 6
    ensures var k := FirstFalse(PromoteAnswers(s, script), pc);
            PromoteRun(Promoted(s, script, pc, pc), pc, script)
            == if k == 6 then Executed(Promoted(s, script, 6, 6), true)
               else Executed(Undone(Promoted(s, script, k + 1, k), Min(k, 3), script.undo), false)
    decreases 6 - pc
  {
    hide PromoteOne, Promoted, PromoteAnswers, Undone, UndoRun;
    SixAnswers(s, script);
    if pc < 6 {
      PromoteOnce(s, script, pc);
      if PromoteAnswers(s, script)[pc] {
        PromoteFrom(s, script, pc + 1);
      } else {
        UndoRunExactly(Promoted(s, script, pc + 1, pc), CompletedBefore(pc), script.undo);
      }
    }
  }

  lemma SixAnswers(s: Site, script: PromoteScript)
    ensures |PromoteAnswers(s, script)| == 6 && PromoteAnswers(s, script)[5]
  {}

  /** The standby side succeeds if and only if the peer is not seen to hold the disk and every call comes back, and then
      has made all of them; otherwise it stops at the first that does not, and undoes exactly the named steps that came
      back before it. */
  lemma PromoteRunExactly(s: Site, script: PromoteScript)
    ensures var k := FirstFalse(PromoteAnswers(s, script), 0);
            PromoteRun(s, 0, script)
            == if k == 6 then Executed(Promoted(s, script, 6, 6), true)
               else Executed(Undone(Promoted(s, script, k + 1, k), Min(k, 3), script.undo), false)
  {
    assert Promoted(s, script, 0, 0) == s;
    PromoteFrom(s, script, 0);
  }

  /* ---------------- failover ---------------- */

  const FAILOVER_CALLS: seq<FailStep> :=
    [FoVerify, FoFence, FoWait, FoAttach, FoMount, FoPgStart, FoVipFree, FoVipAdd, FoPromote]

  predicate FenceFinds(s: Site, script: FailScript) {
    s.holder == Some(s.self.Peer()) && !script.fence.blind
  }

  /** The disk is this node's after the attach of a failover, with up to five attempts. */
  predicate FailHolds(s: Site, script: FailScript) {
    DoneBefore(s.holder == Some(s.self), script.attach, LastAttach(s, script.attach, 5, 1) + 1)
  }

  /** VERIFY, FENCE, WAIT, ATTACH, MOUNT, PG_START, the two calls of VIP, PROMOTE. */
  function FailAnswers(s: Site, script: FailScript): seq<bool> {
    [script.status != "UNKNOWN" && (script.status in {"TERMINATED", "STOPPED"} || !script.pgReachable),
     !FenceFinds(s, script) || ComesBack(script.fence),
     true,
     AttachReply(s, script.attach, LastAttach(s, script.attach, 5, 1)) == Returned,
     FailHolds(s, script) && (Skips(s.mounted, script.mount) || ComesBack(script.mount)),
     StartReply(s.running, script.start) == Returned,
     s.vip !in s.peers || script.free.blind || ComesBack(script.free),
     ComesBack(script.add),
     true]
  }

  /** After the calls from `start` up to `made`, of which those before `done` came back. */
  function FailedOver(s: Site, script: FailScript, start: nat, made: nat, done: nat): Site {
    s.(holder := if made > 3 && FailHolds(s, script) then Some(s.self)
                 else if start <= 1 < made && FenceFinds(s, script) && script.fence.effect then None
                 else s.holder,
       mounted := if made > 4 && FailHolds(s, script) && !Skips(s.mounted, script.mount)
                  then script.mount.effect else s.mounted,
       running := if made > 5 then UpAfter(s.running, script.start) else s.running,
       peers := if made > 6 && s.vip in s.peers && !script.free.blind && script.free.effect
                then Without(s.peers, s.vip) else s.peers,
       mine := if made > 7 && script.add.effect then Aliases.With(s.mine, s.vip) else s.mine,
       local := s.local.(
         diskState := if done > 3 then AttachedRw else s.local.diskState,
         pgState := if done > 5 then RunningPrimary else s.local.pgState,
         role := if done > 8 then NodeRole.Primary else s.local.role,
         health := if done > 8 then Healthy else s.local.health))
  }

  predicate FailNext(s: Site, script: FailScript, start: nat, pc: nat, d: Did)
    requires pc < 9
  {
    var back := FailAnswers(s, script)[pc];
    d.site == FailedOver(s, script, start, pc + 1, if back then pc + 1 else pc) && (d.Raised() <==> !back)
  }

  lemma FailEarly(s: Site, script: FailScript, pc: nat)
    requires pc < 3
    ensures FailNext(s, script, 0, pc, FailOne(FailedOver(s, script, 0, pc, pc), FailStepAt(pc), script))
  {
    hide FailHolds, StartReply, AttachReply, LastAttach;
  }

  lemma FailAttach(s: Site, script: FailScript, start: nat)
    requires start in {0, 3}
    ensures FailNext(s, script, start, 3, FailOne(FailedOver(s, script, start, 3, 3), FoAttach, script))
  {
    hide AttachTries, TryReply, DoneBefore, StartReply;
    var u := FailedOver(s, script, start, 3, 3);
    NotHeld(s, script);
    assert (u.holder == Some(u.self)) == (s.holder == Some(s.self));
    AttachedFirst(u, script.attach);
    AttachTriesExactly(u, script.attach, 1, 5);
  }

  lemma AttachedFirst(s: Site, answer: nat -> Outcome)
    ensures AttachedBefore(s, answer, 1) == s
  {}

  /** What is this node's stays so. */
  lemma NotHeld(s: Site, script: FailScript)
    ensures s.holder == Some(s.self) ==> FailHolds(s, script)
  {}

  lemma FailLate(s: Site, script: FailScript, start: nat, pc: nat)
    requires start in {0, 3} && pc in {4, 6, 7, 8}
    ensures FailNext(s, script, start, pc, FailOne(FailedOver(s, script, start, pc, pc), FailStepAt(pc), script))
  {
    NotHeld(s, script);
    hide FailHolds, StartReply, UpAfter, AttachReply, LastAttach;
  }

  lemma FailStartsPg(s: Site, script: FailScript, start: nat)
    requires start in {0, 3}
    ensures FailNext(s, script, start, 5, FailOne(FailedOver(s, script, start, 5, 5), FoPgStart, script))
  {
    hide StartTries, TryReply, DoneBefore, LastStart, FailHolds, AttachReply, LastAttach;
    StartTriesExactly(FailedOver(s, script, start, 5, 5), script.start);
  }

  lemma FailOnce(s: Site, script: FailScript, start: nat, pc: nat)
    requires start in {0, 3} && start <= pc < 9
    ensures FailNext(s, script, start, pc, FailOne(FailedOver(s, script, start, pc, pc), FailStepAt(pc), script))
  {
    hide FailNext, FailOne, FailedOver;
    if pc < 3 {
      FailEarly(s, script, pc);
    } else if pc == 3 {
      FailAttach(s, script, start);
    } else if pc == 5 {
      FailStartsPg(s, script, start);
    } else {
      FailLate(s, script, start, pc);
    }
  }

  lemma CallsFrom(pc: nat, m: nat)
    requires pc < m <= 9
    ensures FAILOVER_CALLS[pc..m] == [FailStepAt(pc)] + FAILOVER_CALLS[pc + 1..m]
  {}

  lemma {:induction false} FailFrom(s: Site, script: FailScript, start: nat, pc: nat)
    requires start in {0, 3} && start <= pc <= 9
    ensures var k := FirstFalse(FailAnswers(s, script), pc); var u := FailedOver(s, script, start, Min(k + 1, 9), k);
            var r := FailRun(FailedOver(s, script, start, pc, pc), pc, script);
            && r.ok == (k == 9) && r.steps == FAILOVER_CALLS[pc..Min(k + 1, 9)]
            && r.site == if k == 9 then u else SetHealth(u, Failed)
    decreases 9 - pc
  {
    hide FailOne, FailedOver, FailAnswers, FailStepAt;
    NineAnswers(s, script);
    if pc < 9 {
      FailOnce(s, script, start, pc);
      CallsFrom(pc, Min(FirstFalse(FailAnswers(s, script), pc) + 1, 9));
      if FailAnswers(s, script)[pc] {
        FailFrom(s, script, start, pc + 1);
      }
    }
  }

  lemma NineAnswers(s: Site, script: FailScript)
    ensures |FailAnswers(s, script)| == 9
  {}

  /** A failover succeeds if and only if, from the step it starts at, every call comes back: VERIFY when the peer's
      status is known and it is down or silent, the others when they skip or the environment returns. It begins a step
      exactly when all before it came back, and stops at the first that does not, with health FAILED. */
  lemma FailRunExactly(s: Site, skipFence: bool, script: FailScript)
    ensures var start := if skipFence then 3 else 0;
            var k := FirstFalse(FailAnswers(s, script), start); var u := FailedOver(s, script, start, Min(k + 1, 9), k);
            FailRun(s, StartStep(skipFence), script)
            == FailResult(if k == 9 then u else SetHealth(u, Failed), k == 9, FAILOVER_CALLS[start..Min(k + 1, 9)])
  {
    var start := if skipFence then 3 else 0;
    assert FailedOver(s, script, start, start, start) == s;
    FailFrom(s, script, start, start);
  }

  /** In particular a fence that finds the disk at the peer and raises ends the failover before any attach. */
  lemma RaisedFenceEnds(s: Site, script: FailScript)
    requires FenceFinds(s, script) && !ComesBack(script.fence)
    ensures var r := FailRun(s, 0, script);
            !r.ok && FoAttach !in r.steps && r.site.local == s.local.(health := Failed)
                 && r.site.holder in {s.holder, None}
  {
    FailRunExactly(s, false, script);
  }

  /* ---------------- election ---------------- */

  /** The disk is this node's once an election that started at `from`, 0 being the attach, has got in. */
  predicate ElectHolds(s: Site, script: ElectScript, from: nat) {
    s.holder == Some(s.self) || (from == 0 && script.call(ElAttach).effect)
  }

  /** The attach, the mount, the start, the two calls for the VIP, the record. */
  function ElectAnswers(s: Site, script: ElectScript, from: nat): seq<bool> {
    [Skips(s.holder == Some(s.self), script.call(ElAttach)) || ComesBack(script.call(ElAttach)),
     ElectHolds(s, script, from) && (Skips(s.mounted, script.call(ElMount)) || ComesBack(script.call(ElMount))),
     Skips(s.running, script.call(ElPgStart)) || ComesBack(script.call(ElPgStart)),
     s.vip !in s.peers || script.call(ElVipFree).blind || ComesBack(script.call(ElVipFree)),
     ComesBack(script.call(ElVipAdd)),
     true]
  }

  function ElectedTo(s: Site, script: ElectScript, from: nat, made: nat): Site {
    s.(holder := if made > 0 && ElectHolds(s, script, from) then Some(s.self) else s.holder,
       mounted := if made > 1 && ElectHolds(s, script, from) && !Skips(s.mounted, script.call(ElMount))
                  then script.call(ElMount).effect else s.mounted,
       running := s.running || (made > 2 && script.call(ElPgStart).effect),
       peers := if made > 3 && s.vip in s.peers && !script.call(ElVipFree).blind && script.call(ElVipFree).effect
                then Without(s.peers, s.vip) else s.peers,
       mine := if made > 4 && script.call(ElVipAdd).effect then Aliases.With(s.mine, s.vip) else s.mine)
  }

  /** Stopped and unmounted as far as those calls take effect, and recorded as a standby. */
  function ElectedBack(t: Site, script: ElectScript): Elected {
    Standbyish(t.(running := t.running && !script.stop.effect, mounted := t.mounted && !script.unmount.effect))
  }

  lemma ElectOnce(s: Site, script: ElectScript, from: nat, pc: nat)
    requires from in {0, 1} && from <= pc < 5 && (from == 1 ==> s.holder == Some(s.self))
    ensures var d := ElectCall(ElectedTo(s, script, from, pc), ElectStepAt(pc), script.call(ElectStepAt(pc)));
            && d.site == ElectedTo(s, script, from, pc + 1)
            && (d.Raised() <==> !ElectAnswers(s, script, from)[pc])
            && (pc == 0 && d.Raised() ==> d.reply == script.call(ElAttach).reply)
  {}

  lemma {:induction false} ElectFrom(s: Site, script: ElectScript, from: nat, pc: nat)
    requires from in {0, 1} && 1 <= pc <= 5 && (from == 1 ==> s.holder == Some(s.self))
    ensures var k := FirstFalse(ElectAnswers(s, script, from), pc);
            BecomePrimary(ElectedTo(s, script, from, pc), pc, script)
            == if k == 6 then Elected(AsPrimary(ElectedTo(s, script, from, 5)), Some(NodeRole.Primary))
               else ElectedBack(ElectedTo(s, script, from, k + 1), script)
    decreases 5 - pc
  {
    hide ElectedTo, ElectAnswers;
    SixElectAnswers(s, script, from);
    if pc < 5 {
      hide ElectCall;
      ElectOnce(s, script, from, pc);
      if ElectAnswers(s, script, from)[pc] {
        ElectFrom(s, script, from, pc + 1);
      }
    }
  }

  lemma SixElectAnswers(s: Site, script: ElectScript, from: nat)
    ensures |ElectAnswers(s, script, from)| == 6 && ElectAnswers(s, script, from)[5]
  {}

  /** The election stands by where the peer is seen to hold the disk. Elsewhere it becomes PRIMARY if and only if
      every call comes back, beginning with the attach unless the disk is seen to be its own. An attach that does not
      come back ends it, as a standby or, with an error of another kind, with no role; a later call is undone first. */
  lemma ElectExactly(s: Site, script: ElectScript)
    ensures var from := if script.query.blind || s.holder == None then 0 else 1;
            var k := FirstFalse(ElectAnswers(s, script, from), from);
            Elect(s, script)
            == if from == 1 && s.holder != Some(s.self) then Standbyish(s)
               else if k == 6 then Elected(AsPrimary(ElectedTo(s, script, from, 5)), Some(NodeRole.Primary))
               else if k == 0 && script.call(ElAttach).reply == OtherError
               then Elected(ElectedTo(s, script, 0, 1), None)
               else if k == 0 then Standbyish(ElectedTo(s, script, 0, 1))
               else ElectedBack(ElectedTo(s, script, from, k + 1), script)
  {
    SixElectAnswers(s, script, 0);
    if script.query.blind || s.holder == None {
      assert ElectedTo(s, script, 0, 0) == s;
      ElectOnce(s, script, 0, 0);
      if ElectAnswers(s, script, 0)[0] {
        ElectFrom(s, script, 0, 1);
      }
    } else if s.holder == Some(s.self) {
      assert ElectedTo(s, script, 1, 1) == s;
      ElectFrom(s, script, 1, 1);
    }
  }
}
