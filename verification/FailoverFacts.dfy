/** The failover engine over many calls, and as runs of the protocol. */
module FailoverFacts {
  import opened Basics
  import opened Calls
  import opened Protocol
  import opened Monitors
  import opened Switchover
  import opened SwitchoverFacts
  import opened Failover
  import Aliases

  /* ---------------- the attempt budget over any sequence of calls ---------------- */

  /** should_attempt, followed by execute if it agreed: `ok` is how an execution would end. */
  datatype Try = Try(now: real, standby: bool, ok: bool)

  datatype Made = Made(at: real, ok: bool)

  /** The budget after all tries, and the executions that took place. */
  function BudgetAfter(tries: seq<Try>): (Budget, seq<Made>) {
    if tries == [] then (Budget(0, 0.0), [])
    else
      var before := BudgetAfter(tries[..|tries| - 1]);
      var t := tries[|tries| - 1];
      if MayAttempt(before.0, t.standby, t.now)
      then (Charged(before.0, t.now, t.ok), before.1 + [Made(t.now, t.ok)])
      else before
  }

  function Results(made: seq<Made>): seq<bool> {
    seq(|made|, i requires 0 <= i < |made| => made[i].ok)
  }

  /** The counter is the number of executions failed in a row at the end, never above three; and an execution that
      follows a failed one starts at least thirty seconds after it. */
  lemma {:induction false} BudgetKept(tries: seq<Try>)
    ensures var (b, made) := BudgetAfter(tries);
            && b.attempts == TrailingFailures(Results(made)) <= 3
            && (made != [] ==> b.lastTs == made[|made| - 1].at)
            && (forall i :: 0 <= i < |made| - 1 && !made[i].ok ==> made[i + 1].at - made[i].at >= 30.0)
  {
    if tries != [] {
      var init := tries[..|tries| - 1];
      BudgetKept(init);
      var (b, made) := BudgetAfter(init);
      var t := tries[|tries| - 1];
      if MayAttempt(b, t.standby, t.now) {
        assert Results(made + [Made(t.now, t.ok)])[..|made|] == Results(made);
        if made != [] && !made[|made| - 1].ok {
          assert TrailingFailures(Results(made)) > 0;
        }
      }
    }
  }

  /** Three failures in a row are final: no later call of any number starts another execution. */
  lemma {:induction false} BudgetAbsorbs(tries: seq<Try>, more: seq<Try>)
    requires TrailingFailures(Results(BudgetAfter(tries).1)) == 3
    ensures BudgetAfter(tries + more) == BudgetAfter(tries)
    decreases |more|
  {
    BudgetKept(tries);
    if more == [] {
      assert tries + more == tries;
    } else {
      BudgetAbsorbs(tries, more[..|more| - 1]);
      assert (tries + more)[..|tries + more| - 1] == tries + more[..|more| - 1];
    }
  }

  /** Nothing else refuses a standby: it may try exactly when it has failed fewer than three times in a row and, if its
      last execution failed, thirty seconds have passed since that one started. */
  lemma RefusedExactly(tries: seq<Try>, now: real, standby: bool)
    ensures var (b, made) := BudgetAfter(tries);
            var fails := TrailingFailures(Results(made));
            MayAttempt(b, standby, now) <==>
            standby && fails < 3 && (fails > 0 ==> now - made[|made| - 1].at >= 30.0)
  {
    BudgetKept(tries);
  }

  /* ---------------- an execution is a run ---------------- */

  lemma {:induction false} AttachTriesIsOneCall(s: Site, answer: nat -> Outcome, attempt: nat, limit: nat)
      returns (o: Outcome)
    requires 1 <= attempt <= limit
    ensures AttachTries(s, answer, attempt, limit).did == FailCall(s, FoAttach, o)
    decreases limit - attempt
  {
    var d := Attach(s, answer(attempt));
    if d.Raised() && d.reply == Busy && attempt < limit {
      o := AttachTriesIsOneCall(d.site, answer, attempt + 1, limit);
      var t := AttachTries(s, answer, attempt, limit).did;
      o := Outcome(t.site.holder == Some(s.self), t.reply, true);
    } else {
      o := answer(attempt);
    }
  }

  lemma StartRetryIsFailCall(s: Site, start: nat -> Outcome) returns (o: Outcome)
    ensures StartRetry(s, start, 1) == FailCall(s, FoPgStart, o)
  {
    o := StartRetryIsOneCall(s, start, 1);
  }

  /** The answer to a step that makes a single call of its own. */
  function Given(step: FailStep, script: FailScript): Outcome {
    match step
    case FoFence => script.fence
    case FoMount => script.mount
    case FoVipFree => script.free
    case FoVipAdd => script.add
    case _ => DONE
  }

  lemma FailOneIsOneCall(s: Site, step: FailStep, script: FailScript) returns (o: Outcome)
    ensures FailOne(s, step, script) == FailCall(s, step, o)
    ensures step !in {FoVerify, FoAttach, FoPgStart} ==> o == Given(step, script)
  {
    match step
    case FoVerify => o := Outcome(false, VerifyReply(script), false);
    case FoFence => o := script.fence;
    case FoWait => o := DONE;
    case FoAttach => o := AttachTriesIsOneCall(s, script.attach, 1, MAX_ATTACH_ATTEMPTS);
    case FoMount => o := script.mount;
    case FoPgStart => o := StartRetryIsFailCall(s, script.start);
    case FoVipFree => o := script.free;
    case FoVipAdd => o := script.add;
    case FoPromote => o := DONE;
  }

  /** Failover actions from step pc on with the answers given. */
  predicate FailPlayed(acts: seq<Action>, n: Node, pc: nat, script: FailScript) {
    forall i :: 0 <= i < |acts| ==> FailGiven(acts[i], n, FailStepAt(pc + i), script)
  }

  predicate FailGiven(act: Action, n: Node, step: FailStep, script: FailScript) {
    act.FailAct? && act.n == n && (step !in {FoVerify, FoAttach, FoPgStart} ==> act.o == Given(step, script))
  }

  lemma FailPlayedCons(act: Action, rest: seq<Action>, n: Node, pc: nat, script: FailScript)
    requires FailGiven(act, n, FailStepAt(pc), script) && FailPlayed(rest, n, pc + 1, script)
    ensures FailPlayed([act] + rest, n, pc, script)
  {
    var acts := [act] + rest;
    forall i | 0 <= i < |acts| ensures FailGiven(acts[i], n, FailStepAt(pc + i), script) {
      assert i > 0 ==> acts[i] == rest[i - 1] && pc + i == pc + 1 + (i - 1);
    }
  }

  lemma FailPlayedNone(n: Node, pc: nat, script: FailScript)
    ensures FailPlayed([], n, pc, script)
  {}

  /** An uninterrupted failover is a run of the protocol, with the very answers given; VERIFY and the repeated attach
      and start are one step each, with an answer of its own. */
  lemma {:induction false} FailoverIsRun(w: World, n: Node, pc: nat, script: FailScript) returns (acts: seq<Action>)
    requires pc < FAIL_STEPS && w.At(n).proc == FailingOver(pc)
    ensures Solo(w, n, acts, FailRun(SiteOf(w, n), pc, script).site)
    ensures FailPlayed(acts, n, pc, script)
    decreases FAIL_STEPS - pc
  {
    hide Solo, FailPlayed, FailOne, Given;
    var s := SiteOf(w, n);
    var o := FailOneIsOneCall(s, FailStepAt(pc), script);
    var act := FailAct(n, o);
    ViewsAfter(w, act);
    if MoveAt(w, act).proc == Idle {
      acts := [act] + [];
      assert acts == [act];
      SoloOne(w, n, act);
      FailPlayedNone(n, pc + 1, script);
      FailPlayedCons(act, [], n, pc, script);
    } else {
      var rest := FailoverIsRun(Step(w, act), n, pc + 1, script);
      acts := [act] + rest;
      SoloCons(w, n, act, rest, FailRun(s, pc, script).site);
      FailPlayedCons(act, rest, n, pc, script);
    }
  }

  /* ---------------- what success means ---------------- */

  /** Calls that return took effect, and the look at the peer's NIC works. */
  ghost predicate HonestScript(script: FailScript) {
    && (forall k :: Honest(script.attach(k)) && Honest(script.start(k)))
    && Honest(script.mount) && Honest(script.free) && Honest(script.add) && !script.free.blind
  }

  predicate Honest(o: Outcome) {
    o.reply == Returned ==> o.effect
  }

  /** What the steps before pc have built. */
  predicate BuiltBefore(s: Site, pc: nat) {
    && (pc > 3 ==> s.holder == Some(s.self))
    && (pc > 4 ==> s.mounted)
    && (pc > 5 ==> s.running)
    && (pc > 6 ==> s.vip !in s.peers)
    && (pc > 7 ==> s.vip in s.mine)
  }

  lemma {:induction false} AttachTriesBuilds(s: Site, answer: nat -> Outcome, attempt: nat, limit: nat)
    requires 1 <= attempt <= limit && forall k :: Honest(answer(k))
    ensures var d := AttachTries(s, answer, attempt, limit).did; !d.Raised() ==> d.site.holder == Some(s.self)
    decreases limit - attempt
  {
    var d := Attach(s, answer(attempt));
    assert Honest(answer(attempt));
    if d.Raised() && d.reply == Busy && attempt < limit {
      AttachTriesBuilds(d.site, answer, attempt + 1, limit);
    }
  }

  lemma {:induction false} StartRetryBuilds(s: Site, start: nat -> Outcome, attempt: nat)
    requires 1 <= attempt <= MAX_START_ATTEMPTS && forall k :: Honest(start(k))
    ensures var d := StartRetry(s, start, attempt);
            && (!d.Raised() ==> d.site.running)
            && d.site == s.(running := d.site.running, local := d.site.local)
    decreases MAX_START_ATTEMPTS - attempt
  {
    var d := StartPostgres(s, start(attempt));
    assert Honest(start(attempt));
    if d.Raised() && d.reply != OtherError && attempt < MAX_START_ATTEMPTS {
      StartRetryBuilds(d.site, start, attempt + 1);
    }
  }

  lemma FailOneBuilds(s: Site, pc: nat, script: FailScript)
    requires pc < FAIL_STEPS && BuiltBefore(s, pc) && HonestScript(script)
    ensures var d := FailOne(s, FailStepAt(pc), script);
            d.site.self == s.self && d.site.vip == s.vip && (!d.Raised() ==> BuiltBefore(d.site, pc + 1))
  {
    Aliases.WithoutSpec(s.peers, s.vip);
    if pc == 3 {
      AttachTriesNames(s, script.attach, 1, MAX_ATTACH_ATTEMPTS);
      AttachTriesBuilds(s, script.attach, 1, MAX_ATTACH_ATTEMPTS);
    } else if pc == 5 {
      StartRetryBuilds(s, script.start, 1);
    }
  }

  lemma {:induction false} AttachTriesNames(s: Site, answer: nat -> Outcome, attempt: nat, limit: nat)
    requires 1 <= attempt <= limit
    ensures var d := AttachTries(s, answer, attempt, limit).did; d.site.self == s.self && d.site.vip == s.vip
    decreases limit - attempt
  {
    var d := Attach(s, answer(attempt));
    if d.Raised() && d.reply == Busy && attempt < limit {
      AttachTriesNames(d.site, answer, attempt + 1, limit);
    }
  }

  /** A failover that succeeds leaves this node with the disk, the mount, a running server and the VIP, and the peer
      without the VIP, with or without fencing. */
  lemma {:induction false} FailoverBuilds(s: Site, pc: nat, script: FailScript)
    requires pc <= FAIL_STEPS && BuiltBefore(s, pc) && HonestScript(script)
    ensures var r := FailRun(s, pc, script);
            r.ok ==> r.site.holder == Some(s.self) && r.site.mounted && r.site.running
                     && s.vip in r.site.mine && s.vip !in r.site.peers
    decreases FAIL_STEPS - pc
  {
    if pc < FAIL_STEPS {
      FailOneBuilds(s, pc, script);
      var d := FailOne(s, FailStepAt(pc), script);
      if !d.Raised() {
        FailoverBuilds(d.site, pc + 1, script);
      }
    }
  }
}
