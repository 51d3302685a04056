/** What an execution of the switchover engine achieves, and how it relates to the protocol's runs. */
module SwitchoverFacts {
  import opened Basics
  import opened Models
  import opened Aliases
  import opened Calls
  import opened Protocol
  import opened Switchover

  /* ---------------- primary side ---------------- */

  /** What the record shows once the steps before pc have returned. */
  predicate Recorded(l: NodeState, pc: nat) {
    && (pc >= 3 ==> l.pgState == Stopped)
    && (pc >= 5 ==> l.diskState == Detached)
  }

  /** A switchover on the primary side either ends in a STANDBY that records everything as given up, or leaves role
      and health alone; it never touches the peer's NIC, and the disk only if it is this node's. */
  lemma {:induction false} DemoteRunResult(s: Site, pc: nat, calls: DemoteStep -> Outcome)
    requires pc < DEMOTE_STEPS && Recorded(s.local, pc)
    ensures var e := DemoteRun(s, pc, calls);
            && e.site.self == s.self && e.site.peers == s.peers
            && (e.site.holder == s.holder || (s.holder == Some(s.self) && e.site.holder == None))
            && (e.ok ==> e.site.local.role == NodeRole.Standby && e.site.local.health == Healthy
                         && e.site.local.pgState == Stopped && e.site.local.diskState == Detached)
            && (!e.ok ==> e.site.local.role == s.local.role && e.site.local.health == s.local.health)
    decreases DEMOTE_STEPS - pc
  {
    var d := DemoteCall(s, DemoteStepAt(pc), calls(DemoteStepAt(pc)));
    if !d.Raised() && pc + 1 < DEMOTE_STEPS {
      DemoteRunResult(d.site, pc + 1, calls);
    }
  }

  /* ---------------- rollback ---------------- */

  /** A standby that holds nothing: as a demotion leaves it. */
  predicate CleanStandby(s: Site) {
    && s.local.role == NodeRole.Standby && s.local.diskState == Detached && s.local.pgState == Stopped
    && s.holder == None && !s.mounted && !s.running && s.vip !in s.mine && s.vip !in s.peers
  }

  /** A call that raises has no effect, and one that returns has its effect. */
  predicate Exact(o: Outcome) {
    o.effect <==> o.reply == Returned
  }

  ghost predicate ExactScript(script: PromoteScript) {
    && (forall step :: Exact(script.call(step)))
    && (forall k :: Exact(script.start(k)))
    && (forall k :: script.undo(k) == DONE)
  }

  /** The site with the first `done` promotion steps made: attached, mounted, started, VIP added. */
  function Built(s: Site, done: nat): Site {
    s.(holder := if done >= 1 then Some(s.self) else s.holder,
       mounted := done >= 2,
       running := done >= 3,
       mine := if done >= 4 then Aliases.With(s.mine, s.vip) else s.mine,
       local := s.local.(diskState := if done >= 1 then AttachedRw else Detached,
                         pgState := if done >= 3 then RunningPrimary else Stopped))
  }

  lemma {:induction false} UndoBuilt(s: Site, done: nat, undo: nat -> Outcome)
    requires CleanStandby(s) && done <= 4 && forall k :: undo(k) == DONE
    ensures UndoRun(Built(s, done), done, undo) == s
    decreases done
  {
    RemoveUndoesAdd(s.mine, s.vip);
    if done > 0 {
      assert UndoCall(Built(s, done), done, DONE).site == Built(s, done - 1);
      UndoBuilt(s, done - 1, undo);
    } else {
      assert Built(s, 0) == s;
    }
  }

  lemma {:induction false} StartRetryExact(s: Site, start: nat -> Outcome, attempt: nat)
    requires 1 <= attempt <= MAX_START_ATTEMPTS && !s.running && forall k :: Exact(start(k))
    ensures var d := StartRetry(s, start, attempt);
            d.site == if d.Raised() then s else SetPg(s.(running := true), RunningPrimary)
    decreases MAX_START_ATTEMPTS - attempt
  {
    var d := StartPostgres(s, start(attempt));
    assert Exact(start(attempt));
    if d.Raised() && d.reply != OtherError && attempt < MAX_START_ATTEMPTS {
      StartRetryExact(d.site, start, attempt + 1);
    }
  }

  /** From a partly built site, one more call either builds the next part or leaves it alone. */
  lemma PromoteOneBuilds(s: Site, pc: nat, script: PromoteScript)
    requires CleanStandby(s) && pc < 5 && ExactScript(script)
    ensures var d := PromoteOne(Built(s, CompletedBefore(pc)), pc, script);
            d.site == Built(s, CompletedBefore(if d.Raised() then pc else pc + 1))
  {
    assert Exact(script.call(PromoteStepAt(pc)));
    if pc == 2 {
      StartRetryExact(Built(s, 2), script.start, 1);
    }
  }

  lemma {:induction false} PromoteRunExact(s: Site, pc: nat, script: PromoteScript)
    requires CleanStandby(s) && pc <= 5 && ExactScript(script)
    ensures var e := PromoteRun(Built(s, CompletedBefore(pc)), pc, script);
            e.site == if e.ok then SetHealth(SetRole(Built(s, 4), NodeRole.Primary), Healthy) else s
    decreases 5 - pc
  {
    if pc < 5 {
      var b := Built(s, CompletedBefore(pc));
      var d := PromoteOne(b, pc, script);
      PromoteOneBuilds(s, pc, script);
      if d.Raised() {
        UndoBuilt(s, CompletedBefore(pc), script.undo);
      } else {
        PromoteRunExact(s, pc + 1, script);
      }
    }
  }

  /** Rollback exactness: wherever a promotion of a clean standby fails, undoing it restores every part of the node's
      view exactly; and one that succeeds ends PRIMARY with the disk, the mount, PostgreSQL and the VIP, and with
      nothing else changed. */
  lemma RollbackExact(s: Site, script: PromoteScript)
    requires CleanStandby(s) && ExactScript(script)
    ensures var e := PromoteRun(s, 0, script);
            && (!e.ok ==> e.site == s)
            && (e.ok ==> e.site == AsPrimary(s).(holder := Some(s.self), mounted := true, running := true,
                                                 mine := s.mine + [s.vip]))
  {
    assert Built(s, 0) == s;
    PromoteRunExact(s, 0, script);
  }

  /** Same physical resources; the recorded state may differ. */
  predicate SameOutside(s: Site, t: Site) {
    s.(local := t.local) == t
  }

  lemma UndoCallSame(s: Site, t: Site, k: nat, o: Outcome, p: Outcome)
    requires SameOutside(s, t) && o.effect == p.effect && o.blind == p.blind
    ensures SameOutside(UndoCall(s, k, o).site, UndoCall(t, k, p).site)
  {
    hide SameOutside, ReleaseVip, StopPostgres, Unmount, Detach, SetPg, SetDisk;
    if k == 4 {
      ReleaseVipSame(s, t, o, p);
    } else if k == 3 {
      StopPostgresSame(s, t, o, p);
    } else if k == 2 {
      UnmountSame(s, t, o, p);
    } else {
      DetachSame(s, t, o, p);
    }
  }

  lemma ReleaseVipSame(s: Site, t: Site, o: Outcome, p: Outcome)
    requires SameOutside(s, t) && o.effect == p.effect
    ensures SameOutside(ReleaseVip(s, o).site, ReleaseVip(t, p).site)
  {}

  lemma StopPostgresSame(s: Site, t: Site, o: Outcome, p: Outcome)
    requires SameOutside(s, t) && o.effect == p.effect
    ensures var u, v := StopPostgres(s, o).site, StopPostgres(t, p).site;
            && SameOutside(u, v) && SameOutside(SetPg(u, Stopped), SetPg(v, Stopped))
            && SameOutside(u, SetPg(v, Stopped)) && SameOutside(SetPg(u, Stopped), v)
  {}

  lemma UnmountSame(s: Site, t: Site, o: Outcome, p: Outcome)
    requires SameOutside(s, t) && o.effect == p.effect
    ensures SameOutside(Unmount(s, o).site, Unmount(t, p).site)
  {}

  lemma DetachSame(s: Site, t: Site, o: Outcome, p: Outcome)
    requires SameOutside(s, t) && o.effect == p.effect && o.blind == p.blind
    ensures var u, v := Detach(s, o).site, Detach(t, p).site;
            && SameOutside(u, v) && SameOutside(SetDisk(u, Detached), SetDisk(v, Detached))
            && SameOutside(u, SetDisk(v, Detached)) && SameOutside(SetDisk(u, Detached), v)
  {}

  /** An undo call that raises prevents none of the others: what rollback does to the resources depends on which calls
      take effect, not on which of them raise. */
  lemma {:induction false} UndoIgnoresRaises(s: Site, t: Site, left: nat, u: nat -> Outcome, v: nat -> Outcome)
    requires left <= 4 && SameOutside(s, t)
    requires forall k :: 1 <= k <= left ==> u(k).effect == v(k).effect && u(k).blind == v(k).blind
    ensures SameOutside(UndoRun(s, left, u), UndoRun(t, left, v))
    decreases left
  {
    if left > 0 {
      UndoCallSame(s, t, left, u(left), v(left));
      UndoIgnoresRaises(UndoCall(s, left, u(left)).site, UndoCall(t, left, v(left)).site, left - 1, u, v);
    }
  }

  /* ---------------- retries ---------------- */

  /** The attempts together behave like one start call: what the protocol takes as a single step. */
  lemma {:induction false} StartRetryIsOneCall(s: Site, start: nat -> Outcome, attempt: nat) returns (o: Outcome)
    requires 1 <= attempt <= MAX_START_ATTEMPTS
    ensures StartRetry(s, start, attempt) == PromoteCall(s, PgStart, false, o)
    decreases MAX_START_ATTEMPTS - attempt
  {
    var d := StartPostgres(s, start(attempt));
    if d.Raised() && d.reply != OtherError && attempt < MAX_START_ATTEMPTS {
      o := StartRetryIsOneCall(d.site, start, attempt + 1);
      o := Outcome(StartRetry(s, start, attempt).site.running, StartRetry(s, start, attempt).reply, true);
    } else {
      o := start(attempt);
    }
  }

  /* ---------------- executions are runs ---------------- */

  lemma {:induction false} AfterCons(w: World, act: Action, acts: seq<Action>)
    requires Enabled(w, act)
    ensures After(w, [act] + acts) == After(Step(w, act), acts)
    decreases |acts|
  {
    hide Enabled, Step;
    if acts == [] {
      assert [act] + acts == [act];
      assert [act][..0] == [];
    } else {
      AfterCons(w, act, acts[..|acts| - 1]);
      assert ([act] + acts)[..|acts|] == [act] + acts[..|acts| - 1];
    }
  }

  lemma StateCons(w: World, act: Action, acts: seq<Action>, i: nat)
    requires Enabled(w, act) && 0 < i <= |acts| + 1
    ensures StateAt(w, [act] + acts, i) == StateAt(Step(w, act), acts, i - 1)
  {
    hide Enabled, Step;
    assert ([act] + acts)[..i] == [act] + acts[..i - 1];
    AfterCons(w, act, acts[..i - 1]);
  }

  lemma RunCons(w: World, act: Action, acts: seq<Action>)
    requires Enabled(w, act) && Run(Step(w, act), acts)
    ensures Run(w, [act] + acts) && After(w, [act] + acts) == After(Step(w, act), acts)
  {
    hide Enabled, Step, After, StateAt;
    AfterCons(w, act, acts);
    forall i | 0 <= i < |[act] + acts| ensures Enabled(StateAt(w, [act] + acts, i), ([act] + acts)[i]) {
      if i == 0 {
        StateFirst(w, [act] + acts);
      } else {
        StateCons(w, act, acts, i);
        assert Enabled(StateAt(Step(w, act), acts, i - 1), acts[i - 1]);
      }
    }
  }

  lemma RunSnoc(w: World, acts: seq<Action>, act: Action)
    requires Run(w, acts) && Enabled(After(w, acts), act)
    ensures Run(w, acts + [act]) && After(w, acts + [act]) == Step(After(w, acts), act)
  {
    hide Enabled, Step;
    var longer := acts + [act];
    assert longer[..|acts|] == acts;
    forall i | 0 <= i < |longer| ensures Enabled(StateAt(w, longer, i), longer[i]) {
      assert longer[..i] == acts[..i];
      if i < |acts| {
        assert Enabled(StateAt(w, acts, i), acts[i]);
      } else {
        assert acts[..i] == acts;
      }
    }
  }

  /** A run in which only n acts, from w to a state where n's view is s and its engine is idle. */
  ghost predicate Solo(w: World, n: Node, acts: seq<Action>, s: Site) {
    && Run(w, acts) && (forall act <- acts :: act.n == n)
    && SiteOf(After(w, acts), n) == s && After(w, acts).At(n).proc == Idle
  }

  lemma SoloCons(w: World, n: Node, act: Action, acts: seq<Action>, s: Site)
    requires Enabled(w, act) && act.n == n && Solo(Step(w, act), n, acts, s)
    ensures Solo(w, n, [act] + acts, s)
  {
    RunCons(w, act, acts);
  }

  lemma SoloOne(w: World, n: Node, act: Action)
    requires Enabled(w, act) && act.n == n && MoveAt(w, act).proc == Idle
    ensures Solo(w, n, [act], MoveAt(w, act).site)
  {
    ViewsAfter(w, act);
    assert Run(Step(w, act), []);
    RunCons(w, act, []);
    assert [act] + [] == [act];
  }

  /** Undo actions with the answers given, the last one being the end of the rollback. */
  predicate UndoPlayed(acts: seq<Action>, n: Node, undo: nat -> Outcome) {
    forall i :: 0 <= i < |acts| ==> acts[i] == UndoAct(n, undo(|acts| - 1 - i))
  }

  /** Promotion actions from step pc on with the answers given, and undo actions after them. */
  predicate PromotePlayed(acts: seq<Action>, n: Node, pc: nat, script: PromoteScript) {
    forall i :: 0 <= i < |acts| ==>
      || PromoteGiven(acts[i], n, pc + i, script)
      || acts[i] == UndoAct(n, script.undo(|acts| - 1 - i))
  }

  predicate PromoteGiven(act: Action, n: Node, pc: nat, script: PromoteScript) {
    && act.PromoteAct? && act.n == n && act.unchecked == script.unchecked
    && (pc != 2 ==> act.o == script.call(PromoteStepAt(pc)))
  }

  lemma PromotePlayedCons(act: Action, rest: seq<Action>, n: Node, pc: nat, script: PromoteScript)
    requires PromoteGiven(act, n, pc, script)
    requires PromotePlayed(rest, n, pc + 1, script) || UndoPlayed(rest, n, script.undo)
    ensures PromotePlayed([act] + rest, n, pc, script)
  {
    var acts := [act] + rest;
    forall i | 0 <= i < |acts|
      ensures PromoteGiven(acts[i], n, pc + i, script) || acts[i] == UndoAct(n, script.undo(|acts| - 1 - i))
    {
      assert i > 0 ==> acts[i] == rest[i - 1] && |acts| - 1 - i == |rest| - 1 - (i - 1);
    }
  }

  lemma UndoPlayedCons(act: Action, rest: seq<Action>, n: Node, undo: nat -> Outcome)
    requires act == UndoAct(n, undo(|rest|)) && UndoPlayed(rest, n, undo)
    ensures UndoPlayed([act] + rest, n, undo)
  {
    var acts := [act] + rest;
    forall i | 0 <= i < |acts| ensures acts[i] == UndoAct(n, undo(|acts| - 1 - i)) {
      assert i > 0 ==> acts[i] == rest[i - 1] && |acts| - 1 - i == |rest| - 1 - (i - 1);
    }
  }

  lemma {:induction false} UndoIsRun(w: World, n: Node, undo: nat -> Outcome) returns (acts: seq<Action>)
    requires w.At(n).proc.Undoing? && w.At(n).proc.left <= 4
    ensures Solo(w, n, acts, UndoRun(SiteOf(w, n), w.At(n).proc.left, undo))
    ensures |acts| == w.At(n).proc.left + 1 && UndoPlayed(acts, n, undo)
    decreases w.At(n).proc.left
  {
    hide Solo, UndoPlayed;
    var left := w.At(n).proc.left;
    var act := UndoAct(n, undo(left));
    ViewsAfter(w, act);
    if left == 0 {
      acts := [act];
      SoloOne(w, n, act);
      UndoPlayedOne(n, undo);
    } else {
      var rest := UndoIsRun(Step(w, act), n, undo);
      acts := [act] + rest;
      SoloCons(w, n, act, rest, UndoRun(SiteOf(w, n), left, undo));
      UndoPlayedCons(act, rest, n, undo);
    }
  }

  lemma UndoPlayedOne(n: Node, undo: nat -> Outcome)
    ensures UndoPlayed([UndoAct(n, undo(0))], n, undo)
  {}

  /** The uninterrupted promotion is a run of the protocol, with the very answers given; only the start attempts are one
      step with an answer of its own. */
  lemma {:induction false} PromotionIsRun(w: World, n: Node, pc: nat, script: PromoteScript) returns (acts: seq<Action>)
    requires pc < PROMOTE_STEPS && w.At(n).proc == Promoting(pc)
    ensures Solo(w, n, acts, PromoteRun(SiteOf(w, n), pc, script).site)
    ensures PromotePlayed(acts, n, pc, script)
    decreases PROMOTE_STEPS - pc
  {
    hide Solo, UndoPlayed, PromotePlayed, StartTries;
    var s := SiteOf(w, n);
    var o := script.call(PromoteStepAt(pc));
    if pc == 2 {
      o := StartRetryIsOneCall(s, script.start, 1);
    }
    var act := PromoteAct(n, script.unchecked, o);
    assert PromoteOne(s, pc, script) == PromoteCall(s, PromoteStepAt(pc), script.unchecked, o);
    ViewsAfter(w, act);
    var rest: seq<Action>;
    if PromoteOne(s, pc, script).Raised() {
      rest := UndoIsRun(Step(w, act), n, script.undo);
    } else if pc + 1 == PROMOTE_STEPS {
      SoloOne(w, n, act);
      PromotePlayedNone(n, pc + 1, script);
      PromotePlayedCons(act, [], n, pc, script);
      acts := [act] + [];
      assert acts == [act];
      return;
    } else {
      rest := PromotionIsRun(Step(w, act), n, pc + 1, script);
    }
    acts := [act] + rest;
    SoloCons(w, n, act, rest, PromoteRun(s, pc, script).site);
    PromotePlayedCons(act, rest, n, pc, script);
  }

  lemma PromotePlayedNone(n: Node, pc: nat, script: PromoteScript)
    ensures PromotePlayed([], n, pc, script)
  {}

  /** So is the uninterrupted demotion. */
  lemma {:induction false} DemotionIsRun(w: World, n: Node, pc: nat, calls: DemoteStep -> Outcome)
      returns (acts: seq<Action>)
    requires pc < DEMOTE_STEPS && w.At(n).proc == Demoting(pc)
    ensures Solo(w, n, acts, DemoteRun(SiteOf(w, n), pc, calls).site)
    ensures DemotePlayed(acts, n, pc, calls)
    decreases DEMOTE_STEPS - pc
  {
    hide DemoteCall, Solo, DemotePlayed;
    var s := SiteOf(w, n);
    var act := DemoteAct(n, calls(DemoteStepAt(pc)));
    ViewsAfter(w, act);
    var rest: seq<Action> := [];
    if MoveAt(w, act).proc == Idle {
      acts := [act] + [];
      assert acts == [act];
      SoloOne(w, n, act);
      DemotePlayedNone(n, pc + 1, calls);
    } else {
      rest := DemotionIsRun(Step(w, act), n, pc + 1, calls);
      acts := [act] + rest;
      SoloCons(w, n, act, rest, DemoteRun(s, pc, calls).site);
    }
    DemotePlayedCons(act, rest, n, pc, calls);
  }

  /** The steps of a demotion from pc on, with the answers given. */
  predicate DemotePlayed(acts: seq<Action>, n: Node, pc: nat, calls: DemoteStep -> Outcome) {
    forall i :: 0 <= i < |acts| ==> acts[i] == DemoteAct(n, calls(DemoteStepAt(pc + i)))
  }

  lemma DemotePlayedNone(n: Node, pc: nat, calls: DemoteStep -> Outcome)
    ensures DemotePlayed([], n, pc, calls)
  {}

  lemma DemotePlayedCons(act: Action, rest: seq<Action>, n: Node, pc: nat, calls: DemoteStep -> Outcome)
    requires act == DemoteAct(n, calls(DemoteStepAt(pc))) && DemotePlayed(rest, n, pc + 1, calls)
    ensures DemotePlayed([act] + rest, n, pc, calls)
  {
    var acts := [act] + rest;
    forall i | 0 <= i < |acts| ensures acts[i] == DemoteAct(n, calls(DemoteStepAt(pc + i))) {
      assert i > 0 ==> acts[i] == rest[i - 1] && pc + i == pc + 1 + (i - 1);
    }
  }
}
