/** ha/failover.py: the automatic failover engine, its attempt budget and its attach back-off. */
module Failover {
  import opened Basics
  import opened Models
  import opened Calls
  import opened LocalNodes
  import opened Resources
  import opened Switchover

  /* ---------------- attach with back-off ---------------- */

  const FIRST_BACKOFF: nat := 3
  const BACKOFF_CAP: nat := 30
  const MAX_ATTACH_ATTEMPTS: nat := 5

  function NextBackoff(b: nat): nat {
    Min(b * 2, BACKOFF_CAP)
  }

  /** The k-th wait, counting from 0. */
  function Backoff(k: nat): nat {
    if k == 0 then FIRST_BACKOFF else NextBackoff(Backoff(k - 1))
  }

  function TotalBackoff(k: nat): nat {
    if k == 0 then 0 else TotalBackoff(k - 1) + Backoff(k - 1)
  }

  function Pow2(k: nat): nat {
    if k == 0 then 1 else 2 * Pow2(k - 1)
  }

  lemma {:induction false} BackoffClosed(k: nat)
    ensures Backoff(k) == if k <= 3 then 3 * Pow2(k) else 30
  {
    if k > 0 {
      BackoffClosed(k - 1);
      assert Pow2(0) == 1 && Pow2(1) == 2 && Pow2(2) == 4 && Pow2(3) == 8;
    }
  }

  /** Four doubling waits, then 30 seconds each. */
  lemma {:induction false} TotalBackoffClosed(k: nat)
    ensures TotalBackoff(k) == if k <= 4 then 3 * (Pow2(k) - 1) else 45 + 30 * (k - 4)
  {
    if k > 0 {
      TotalBackoffClosed(k - 1);
      BackoffClosed(k - 1);
      assert Pow2(0) == 1 && Pow2(1) == 2 && Pow2(2) == 4 && Pow2(3) == 8 && Pow2(4) == 16;
    }
  }

  lemma {:induction false} TotalBackoffMonotone(j: nat, k: nat)
    requires j <= k
    ensures TotalBackoff(j) <= TotalBackoff(k)
  {
    if j < k {
      TotalBackoffMonotone(j, k - 1);
    }
  }

  datatype Tried = Tried(did: Did, calls: nat, slept: nat)

  /** What attempt number `attempt` and those after it do. */
  function AttachTries(s: Site, answer: nat -> Outcome, attempt: nat, limit: nat): Tried
    requires 1 <= attempt <= limit
    decreases limit - attempt
  {
    var d := Attach(s, answer(attempt));
    if !d.Raised() then Tried(d.(site := SetDisk(d.site, AttachedRw)), 1, 0)
    else if d.reply == Busy && attempt < limit then
      var rest := AttachTries(d.site, answer, attempt + 1, limit);
      Tried(rest.did, rest.calls + 1, rest.slept + Backoff(attempt - 1))
    else Tried(d, 1, 0)
  }

  /** A node at s as attempt i finds it, if there is one. */
  function AttachedBefore(s: Site, answer: nat -> Outcome, i: nat): Site {
    if DoneBefore(s.holder == Some(s.self), answer, i) then s.(holder := Some(s.self)) else s
  }

  function AttachReply(s: Site, answer: nat -> Outcome, i: nat): Reply {
    TryReply(s.holder == Some(s.self), answer, i)
  }

  function LastAttach(s: Site, answer: nat -> Outcome, limit: nat, i: nat): (k: nat)
    requires 1 <= i <= limit
    ensures i <= k <= limit
  {
    LastTry(s.holder == Some(s.self), answer, {Busy}, limit, i)
  }

  lemma AttachOnce(s: Site, answer: nat -> Outcome, i: nat)
    requires i >= 1
    ensures Attach(AttachedBefore(s, answer, i), answer(i))
         == Did(AttachedBefore(s, answer, i + 1), AttachReply(s, answer, i))
    ensures TryReply(s.holder == Some(s.self), answer, i) == AttachReply(s, answer, i)
  {}

  /** From attempt i on: the first answer that is not busy, or the last one, decides. */
  lemma {:induction false} AttachTriesExactly(s: Site, answer: nat -> Outcome, attempt: nat, limit: nat)
    requires 1 <= attempt <= limit
    ensures var t := AttachTries(AttachedBefore(s, answer, attempt), answer, attempt, limit);
            var k := LastAttach(s, answer, limit, attempt); var r := AttachReply(s, answer, k);
            && t.calls == k - attempt + 1
            && t.slept == TotalBackoff(k - 1) - TotalBackoff(attempt - 1)
            && t.did.reply == r
            && t.did.site == var u := AttachedBefore(s, answer, k + 1);
                             if r == Returned then SetDisk(u, AttachedRw) else u
    decreases limit - attempt
  {
    hide Attach, AttachedBefore, AttachReply, TryReply, DoneBefore, SetDisk, Backoff;
    var k := LastAttach(s, answer, limit, attempt);
    TotalBackoffMonotone(attempt - 1, attempt);
    AttachOnce(s, answer, attempt);
    if attempt < limit && AttachReply(s, answer, attempt) == Busy {
      AttachTriesExactly(s, answer, attempt + 1, limit);
      TotalBackoffMonotone(attempt - 1, k - 1);
      TotalBackoffMonotone(attempt, k - 1);
    }
  }

  ghost predicate FirstDecisive(s: Site, answer: nat -> Outcome, limit: nat, k: nat) {
    && 1 <= k <= limit && AttachReply(s, answer, k) != Busy
    && forall i :: 1 <= i < k ==> AttachReply(s, answer, i) == Busy
  }

  /** The loop succeeds exactly when the first answer that is not "already being used", within the limit, is a
      success; it makes no call after that answer; and it sleeps at most 3(2^(n-1)-1) seconds for a limit n up to 5
      and 45+30(n-5) beyond, exactly that if every answer is busy. */
  lemma AttachLoop(s: Site, answer: nat -> Outcome, limit: nat)
    requires limit >= 1
    ensures var t := AttachTries(s, answer, 1, limit);
            var bound := if limit <= 5 then 3 * (Pow2(limit - 1) - 1) else 45 + 30 * (limit - 5);
            && (!t.did.Raised() <==>
                  exists k :: FirstDecisive(s, answer, limit, k) && AttachReply(s, answer, k) == Returned)
            && (forall k :: FirstDecisive(s, answer, limit, k) ==> t.calls == k)
            && t.slept <= bound
            && ((forall i :: 1 <= i <= limit ==> AttachReply(s, answer, i) == Busy) ==>
                  t.slept == bound && t.calls == limit)
  {
    var k := LastAttach(s, answer, limit, 1);
    assert AttachedBefore(s, answer, 1) == s;
    AttachTriesExactly(s, answer, 1, limit);
    TotalBackoffMonotone(k - 1, limit - 1);
    TotalBackoffClosed(limit - 1);
    assert TotalBackoff(0) == 0;
    assert Pow2(0) == 1 && Pow2(1) == 2 && Pow2(2) == 4 && Pow2(3) == 8 && Pow2(4) == 16;
    DecisiveIsLast(s, answer, limit);
  }

  lemma DecisiveIsLast(s: Site, answer: nat -> Outcome, limit: nat)
    requires limit >= 1
    ensures var k := LastAttach(s, answer, limit, 1);
            && (forall j :: FirstDecisive(s, answer, limit, j) ==> j == k)
            && (AttachReply(s, answer, k) != Busy <==> FirstDecisive(s, answer, limit, k))
  {
    hide TryReply;
    var k := LastAttach(s, answer, limit, 1);
    forall j | FirstDecisive(s, answer, limit, j) ensures j == k {
      assert k < j ==> AttachReply(s, answer, k) == Busy;
      assert j < k ==> TryReply(s.holder == Some(s.self), answer, j) in {Busy};
    }
  }

  /* ---------------- one execution ---------------- */

  /** What the environment answers during one failover. */
  datatype FailScript = FailScript(
    status: string,             // the peer's instance status; UNKNOWN when the API cannot be reached
    pgReachable: bool,          // TCP probe of the peer's PostgreSQL port
    fence: Outcome,
    attach: nat -> Outcome,
    mount: Outcome,
    start: nat -> Outcome,
    free: Outcome,
    add: Outcome)

  predicate Down(status: string) {
    status == "TERMINATED" || status == "STOPPED"
  }

  /** The quorum check: go on only if the status is known and the peer is down or does not serve PostgreSQL. */
  function VerifyReply(script: FailScript): Reply {
    if script.status == "UNKNOWN" then RuntimeError
    else if Down(script.status) then Returned
    else if script.pgReachable then RuntimeError
    else Returned
  }

  function FailOne(s: Site, step: FailStep, script: FailScript): Did {
    match step
    case FoVerify => Did(s, VerifyReply(script))
    case FoFence => FailCall(s, FoFence, script.fence)
    case FoWait => Did(s, Returned)
    case FoAttach => AttachTries(s, script.attach, 1, MAX_ATTACH_ATTEMPTS).did
    case FoMount => FailCall(s, FoMount, script.mount)
    case FoPgStart => StartRetry(s, script.start, 1)
    case FoVipFree => FailCall(s, FoVipFree, script.free)
    case FoVipAdd => FailCall(s, FoVipAdd, script.add)
    case FoPromote => FailCall(s, FoPromote, DONE)
  }

  /** `steps`: those begun, the last of them failed unless ok. */
  datatype FailResult = FailResult(site: Site, ok: bool, steps: seq<FailStep>)

  function FailRun(s: Site, pc: nat, script: FailScript): FailResult
    requires pc <= FAIL_STEPS
    decreases FAIL_STEPS - pc
  {
    if pc == FAIL_STEPS then FailResult(s, true, [])
    else
      var d := FailOne(s, FailStepAt(pc), script);
      if d.Raised() then FailResult(SetHealth(d.site, Failed), false, [FailStepAt(pc)])
      else
        var rest := FailRun(d.site, pc + 1, script);
        FailResult(rest.site, rest.ok, [FailStepAt(pc)] + rest.steps)
  }

  /** The recorded state before step pc of this very execution. */
  predicate RecordedBefore(l: NodeState, pc: nat) {
    (pc > 3 ==> l.diskState == AttachedRw) && (pc > 5 ==> l.pgState == RunningPrimary)
  }

  /** The steps begun are a prefix of the step list from pc on, all of it exactly on success. The node becomes PRIMARY
      only on success, and then this execution has recorded the attachment and the running server; on failure the role
      stays and the health is FAILED. */
  lemma {:induction false} FailoverTrace(s: Site, pc: nat, script: FailScript)
    requires pc < FAIL_STEPS && RecordedBefore(s.local, pc)
    ensures var r := FailRun(s, pc, script);
            && 1 <= |r.steps| <= FAIL_STEPS - pc
            && (forall i :: 0 <= i < |r.steps| ==> r.steps[i] == FailStepAt(pc + i))
            && (r.ok ==> |r.steps| == FAIL_STEPS - pc)
            && (r.ok ==> r.site.local.role == NodeRole.Primary && r.site.local.health == Healthy
                         && r.site.local.diskState == AttachedRw && r.site.local.pgState == RunningPrimary)
            && (!r.ok ==> r.site.local.role == s.local.role && r.site.local.health == Failed)
    decreases FAIL_STEPS - pc
  {
    var d := FailOne(s, FailStepAt(pc), script);
    FailOneRecords(s, pc, script);
    if !d.Raised() && pc + 1 < FAIL_STEPS {
      FailoverTrace(d.site, pc + 1, script);
    }
  }

  lemma FailOneRecords(s: Site, pc: nat, script: FailScript)
    requires pc < FAIL_STEPS && RecordedBefore(s.local, pc)
    ensures var d := FailOne(s, FailStepAt(pc), script);
            && (!d.Raised() ==> RecordedBefore(d.site.local, pc + 1))
            && (d.Raised() || pc < 8 ==> d.site.local.role == s.local.role)
            && (pc == 8 ==> !d.Raised() && d.site.local.role == NodeRole.Primary && d.site.local.health == Healthy)
  {
    if pc == 3 {
      AttachTriesRecords(s, script.attach, 1, MAX_ATTACH_ATTEMPTS);
    } else if pc == 5 {
      StartRetryRecords(s, script.start, 1);
    }
  }

  lemma {:induction false} AttachTriesRecords(s: Site, answer: nat -> Outcome, attempt: nat, limit: nat)
    requires 1 <= attempt <= limit
    ensures var d := AttachTries(s, answer, attempt, limit).did;
            d.site.local == if d.Raised() then s.local else s.local.(diskState := AttachedRw)
    decreases limit - attempt
  {
    var d := Attach(s, answer(attempt));
    if d.Raised() && d.reply == Busy && attempt < limit {
      AttachTriesRecords(d.site, answer, attempt + 1, limit);
    }
  }

  lemma {:induction false} StartRetryRecords(s: Site, start: nat -> Outcome, attempt: nat)
    requires 1 <= attempt <= MAX_START_ATTEMPTS
    ensures var d := StartRetry(s, start, attempt);
            d.site.local == if d.Raised() then s.local else s.local.(pgState := RunningPrimary)
    decreases MAX_START_ATTEMPTS - attempt
  {
    var d := StartPostgres(s, start(attempt));
    if d.Raised() && d.reply != OtherError && attempt < MAX_START_ATTEMPTS {
      StartRetryRecords(d.site, start, attempt + 1);
    }
  }

  function StartStep(skipFence: bool): nat {
    if skipFence then FIRST_UNSKIPPED else 0
  }

  /** The peer is fenced in an execution only if fencing was not skipped and the peer's status is known and says it is
      down, or its PostgreSQL port did not answer; and in that case always. */
  lemma FencedOnlyIf(s: Site, skipFence: bool, script: FailScript)
    ensures FoFence in FailRun(s, StartStep(skipFence), script).steps <==>
            !skipFence && script.status != "UNKNOWN" && (Down(script.status) || !script.pgReachable)
  {
    FailoverTraceFrom(s, StartStep(skipFence), script);
    if !skipFence {
      var r := FailRun(s, 0, script);
      assert r.steps[0] == FoVerify;
      if VerifyReply(script) == Returned {
        var rest := FailRun(s, 1, script);
        assert r.steps == [FoVerify] + rest.steps;
        FailoverTraceFrom(s, 1, script);
        assert rest.steps[0] == FoFence;
        assert r.steps[1] == FoFence;
      } else {
        assert r.steps == [FoVerify];
      }
    }
  }

  lemma {:induction false} FailoverTraceFrom(s: Site, pc: nat, script: FailScript)
    requires pc < FAIL_STEPS
    ensures var r := FailRun(s, pc, script);
            1 <= |r.steps| <= FAIL_STEPS - pc && forall i :: 0 <= i < |r.steps| ==> r.steps[i] == FailStepAt(pc + i)
    decreases FAIL_STEPS - pc
  {
    if pc + 1 < FAIL_STEPS {
      FailoverTraceFrom(FailOne(s, FailStepAt(pc), script).site, pc + 1, script);
    }
  }

  /* ---------------- the attempt budget ---------------- */

  const MAX_ATTEMPTS: nat := 3
  const RETRY_BACKOFF: real := 30.0

  datatype Budget = Budget(attempts: nat, lastTs: real)

  predicate MayAttempt(b: Budget, standby: bool, now: real) {
    standby && b.attempts < MAX_ATTEMPTS && !(b.attempts > 0 && now - b.lastTs < RETRY_BACKOFF)
  }

  function Charged(b: Budget, now: real, ok: bool): Budget {
    Budget(if ok then 0 else b.attempts + 1, now)
  }

  /* ---------------- the engine ---------------- */

  datatype FailName =
    NameVerify | NameFence | NameWait | NameAttach | NameMount | NameStartPg | NameMoveVip | NamePromote

  const FAILOVER: seq<FailName> :=
    [NameVerify, NameFence, NameWait, NameAttach, NameMount, NameStartPg, NameMoveVip, NamePromote]

  function FirstFailCall(i: nat): nat {
    if i <= 6 then i else i + 1
  }

  function FirstOf(name: FailName): FailStep {
    match name
    case NameVerify => FoVerify
    case NameFence => FoFence
    case NameWait => FoWait
    case NameAttach => FoAttach
    case NameMount => FoMount
    case NameStartPg => FoPgStart
    case NameMoveVip => FoVipFree
    case NamePromote => FoPromote
  }

  /** One named step; moving the VIP is two calls. */
  function NamedDid(s: Site, name: FailName, script: FailScript): Did {
    var d := FailOne(s, FirstOf(name), script);
    if name == NameMoveVip && !d.Raised() then FailOne(d.site, FoVipAdd, script) else d
  }

  function Ending(s: Site, pc: nat, script: FailScript): Executed
    requires pc <= FAIL_STEPS
  {
    var r := FailRun(s, pc, script);
    Executed(r.site, r.ok)
  }

  lemma NamedStep(s: Site, i: nat, script: FailScript)
    requires i < |FAILOVER|
    ensures var d := NamedDid(s, FAILOVER[i], script);
            Ending(s, FirstFailCall(i), script) ==
            if d.Raised() then Executed(SetHealth(d.site, Failed), false)
            else Ending(d.site, FirstFailCall(i + 1), script)
  {
    assert FirstOf(FAILOVER[i]) == FailStepAt(FirstFailCall(i));
  }

  class FailoverEngine {
    const local: LocalNode
    const managers: Managers
    const switchover: SwitchoverEngine
    var attempts: nat
    var lastAttemptTs: real
    var peerInstanceStatus: string

    /** The start-with-retry loop is the same code on both engines. */
    constructor (local: LocalNode, managers: Managers, switchover: SwitchoverEngine)
      requires switchover.local == local && switchover.managers == managers
      ensures this.local == local && this.managers == managers && Valid()
      ensures Spent() == Budget(0, 0.0)
    {
      this.local, this.managers, this.switchover := local, managers, switchover;
      attempts, lastAttemptTs, peerInstanceStatus := 0, 0.0, "UNKNOWN";
    }

    ghost predicate Valid() {
      switchover.local == local && switchover.managers == managers
    }

    ghost function Spent(): Budget
      reads this
    {
      Budget(attempts, lastAttemptTs)
    }

    ghost function Now(): Site
      reads this, local, managers
    {
      managers.View(local)
    }

    method ShouldAttempt(now: real) returns (yes: bool)
      ensures yes == MayAttempt(Spent(), local.IsStandby(), now)
    {
      if !local.IsStandby() {
        return false;
      }
      if attempts >= MAX_ATTEMPTS {
        return false;
      }
      var elapsed := now - lastAttemptTs;
      if attempts > 0 && elapsed < RETRY_BACKOFF {
        return false;
      }
      yes := true;
    }

    method StepAttach(answer: nat -> Outcome) returns (r: Reply, calls: nat, slept: nat)
      modifies local, managers
      ensures Tried(Did(Now(), r), calls, slept) == AttachTries(old(Now()), answer, 1, MAX_ATTACH_ATTEMPTS)
    {
      hide Attach;
      var attempt, backoff := 1, FIRST_BACKOFF;
      calls, slept := 0, 0;
      while true
        invariant 1 <= attempt <= MAX_ATTACH_ATTEMPTS && backoff == Backoff(attempt - 1)
        invariant var t := AttachTries(Now(), answer, attempt, MAX_ATTACH_ATTEMPTS);
                  Tried(t.did, calls + t.calls, slept + t.slept)
                  == AttachTries(old(Now()), answer, 1, MAX_ATTACH_ATTEMPTS)
        decreases MAX_ATTACH_ATTEMPTS - attempt
      {
        r := managers.AttachDiskRw(answer(attempt), local);
        calls := calls + 1;
        if r == Returned {
          local.SetDiskState(AttachedRw);
          return;
        }
        if attempt == MAX_ATTACH_ATTEMPTS || r != Busy {
          return;
        }
        slept := slept + backoff;
        backoff := Min(backoff * 2, BACKOFF_CAP);
        attempt := attempt + 1;
      }
    }

    method DoStep(name: FailName, script: FailScript) returns (r: Reply)
      requires Valid()
      modifies `peerInstanceStatus, local, managers
      ensures Did(Now(), r) == NamedDid(old(Now()), name, script)
    {
      match name
      case NameVerify =>
        peerInstanceStatus := script.status;
        if script.status == "UNKNOWN" {
          r := RuntimeError;
        } else if script.status != "TERMINATED" && script.status != "STOPPED" && script.pgReachable {
          r := RuntimeError;
        } else {
          r := Returned;
        }
      case NameFence => r := managers.ForceDetach(script.fence, local);
      case NameWait => r := Returned;
      case NameAttach =>
        var calls, slept;
        r, calls, slept := StepAttach(script.attach);
      case NameMount => r := managers.MountDisk(script.mount, local);
      case NameStartPg =>
        var tries;
        r, tries := switchover.StartWithRetry(script.start);
      case NameMoveVip =>
        r := managers.FreeVipFromPeer(script.free, local);
        if r == Returned {
          r := managers.TakeVip(script.add, local);
        }
      case NamePromote =>
        local.SetRole(NodeRole.Primary);
        local.SetHealth(Healthy);
        r := Returned;
    }

    method Execute(skipFence: bool, now: real, script: FailScript) returns (ok: bool)
      requires Valid()
      modifies this, local, managers
      ensures Spent() == Charged(old(Spent()), now, ok)
      ensures Executed(Now(), ok) == Ending(old(Now()), StartStep(skipFence), script)
    {
      hide FailOne, NamedDid;
      attempts := attempts + 1;
      lastAttemptTs := now;
      var i := 0;
      while i < |FAILOVER|
        invariant 0 <= i <= |FAILOVER| && Spent() == Budget(old(attempts) + 1, now)
        invariant Ending(Now(), if skipFence && i < 3 then 3 else FirstFailCall(i), script)
                  == Ending(old(Now()), StartStep(skipFence), script)
      {
        if skipFence && FAILOVER[i] in {NameVerify, NameFence, NameWait} {
          i := i + 1;
          continue;
        }
        NamedStep(Now(), i, script);
        var r := DoStep(FAILOVER[i], script);
        if r != Returned {
          local.SetHealth(Failed);
          return false;
        }
        i := i + 1;
      }
      attempts := 0;
      ok := true;
    }
  }
}
