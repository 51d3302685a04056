/** daemon.py: the threads of one daemon and the flag and time stamp that keep its main loop from mistaking its own
    demotion for the peer's. One event is one write of shared state, or one test of the role, by one thread. Any number
    of switchover threads of either kind may be there at once: the daemon tests the flag when it accepts a command and
    sets it only in the thread, and it accepts a SWITCHOVER_REQUEST at any time. */
module Grace {
  import opened Basics
  import opened Models

  /** Where a switchover thread stands. A demotion is Spawned, has Entered by setting the flag, is Executing once it
      has found the node PRIMARY, may have set the role, and has Stamped before it clears the flag and is gone. A
      promotion is Waiting from the moment the request set the flag, Promoting once it has found the node STANDBY, and
      may have Promoted it before it clears the flag and is gone. */
  datatype Phase = Spawned | Entered | Executing | RoleSet | Stamped | Waiting | Promoting | Promoted

  /** How many threads stand where. */
  datatype Crew = Crew(
    spawned: nat, entered: nat, executing: nat, roleSet: nat, stamped: nat, waiting: nat, promoting: nat, promoted: nat)
  {
    function Of(p: Phase): nat {
      match p
      case Spawned => spawned
      case Entered => entered
      case Executing => executing
      case RoleSet => roleSet
      case Stamped => stamped
      case Waiting => waiting
      case Promoting => promoting
      case Promoted => promoted
    }

    predicate Has(p: Phase) { Of(p) > 0 }

    function Plus(p: Phase): Crew {
      match p
      case Spawned => this.(spawned := spawned + 1)
      case Entered => this.(entered := entered + 1)
      case Executing => this.(executing := executing + 1)
      case RoleSet => this.(roleSet := roleSet + 1)
      case Stamped => this.(stamped := stamped + 1)
      case Waiting => this.(waiting := waiting + 1)
      case Promoting => this.(promoting := promoting + 1)
      case Promoted => this.(promoted := promoted + 1)
    }

    function Minus(p: Phase): Crew
      requires Has(p)
    {
      match p
      case Spawned => this.(spawned := spawned - 1)
      case Entered => this.(entered := entered - 1)
      case Executing => this.(executing := executing - 1)
      case RoleSet => this.(roleSet := roleSet - 1)
      case Stamped => this.(stamped := stamped - 1)
      case Waiting => this.(waiting := waiting - 1)
      case Promoting => this.(promoting := promoting - 1)
      case Promoted => this.(promoted := promoted - 1)
    }

    /** The threads that have set the flag and not yet ended. */
    function Inside(): nat {
      entered + executing + roleSet + stamped + waiting + promoting + promoted
    }
  }

  const NOBODY := Crew(0, 0, 0, 0, 0, 0, 0, 0)

  /** The main loop: at its guard, or inside a self-demotion before or after it has set the role. */
  datatype MainLoop = AtGuard | SelfRunning | SelfRoleSet

  datatype Threads = Threads(
    role: NodeRole,
    active: bool,               // _switchover_active
    lastDemotionTs: real,
    now: real,
    crew: Crew,
    main: MainLoop,
    demotedAt: Option<real>)    // when the role was last set to STANDBY by a demotion

  datatype Event =
    | Clock(d: real)
    | Dispatch                  // operator's command accepted: a thread is started
    | Enter                     // it sets the flag
    | Begin                     // finds the node PRIMARY
    | DemoteRole                // DEMOTE
    | Stamp(from: Phase)        // and ends, from wherever it is: first the time stamp,
    | Clear                     // then the flag
    | Request                   // a SWITCHOVER_REQUEST is accepted: the flag, and a thread
    | Admit                     // it finds the node STANDBY
    | PromoteRole               // PROMOTE
    | Leave(from: Phase)        // and ends, from wherever it is, clearing the flag
    | SelfBegin
    | SelfRole
    | SelfStamp
    | FailoverDone              // a failover thread made this node PRIMARY

  /** A thread that has set the flag refuses to go on when the node has the wrong role. */
  predicate Possible(t: Threads, e: Event) {
    match e
    case Clock(d) => d >= 0.0
    case Dispatch => t.role == NodeRole.Primary && !t.active
    case Enter => t.crew.Has(Spawned)
    case Begin => t.crew.Has(Entered) && t.role == NodeRole.Primary
    case DemoteRole => t.crew.Has(Executing)
    case Stamp(from) =>
      && t.crew.Has(from)
      && (from == Executing || from == RoleSet || (from == Entered && t.role != NodeRole.Primary))
    case Clear => t.crew.Has(Stamped)
    case Request => true
    case Admit => t.crew.Has(Waiting) && t.role == NodeRole.Standby
    case PromoteRole => t.crew.Has(Promoting)
    case Leave(from) =>
      && t.crew.Has(from)
      && (from == Promoting || from == Promoted || (from == Waiting && t.role != NodeRole.Standby))
    case SelfBegin => t.main == AtGuard && t.role == NodeRole.Primary && !t.active
    case SelfRole => t.main == SelfRunning
    case SelfStamp => t.main == SelfRoleSet
    case FailoverDone => t.role == NodeRole.Standby
  }

  function Next(t: Threads, e: Event): Threads
    requires Possible(t, e)
  {
    var c := t.crew;
    match e
    case Clock(d) => t.(now := t.now + d)
    case Dispatch => t.(crew := c.Plus(Spawned))
    case Enter => t.(crew := c.Minus(Spawned).Plus(Entered), active := true)
    case Begin => t.(crew := c.Minus(Entered).Plus(Executing))
    case DemoteRole =>
      t.(crew := c.Minus(Executing).Plus(RoleSet), role := NodeRole.Standby, demotedAt := Some(t.now))
    case Stamp(from) => t.(crew := c.Minus(from).Plus(Stamped), lastDemotionTs := t.now)
    case Clear => t.(crew := c.Minus(Stamped), active := false)
    case Request => t.(crew := c.Plus(Waiting), active := true)
    case Admit => t.(crew := c.Minus(Waiting).Plus(Promoting))
    case PromoteRole => t.(crew := c.Minus(Promoting).Plus(Promoted), role := NodeRole.Primary)
    case Leave(from) => t.(crew := c.Minus(from), active := false)
    case SelfBegin => t.(main := SelfRunning)
    case SelfRole => t.(main := SelfRoleSet, role := NodeRole.Standby, demotedAt := Some(t.now))
    case SelfStamp => t.(main := AtGuard, lastDemotionTs := t.now)
    case FailoverDone => t.(role := NodeRole.Primary)
  }

  function End(t: Threads, es: seq<Event>): Threads {
    if es == [] then t
    else
      var u := End(t, es[..|es| - 1]);
      if Possible(u, es[|es| - 1]) then Next(u, es[|es| - 1]) else u
  }

  predicate Trace(t: Threads, es: seq<Event>) {
    es == [] || (Trace(t, es[..|es| - 1]) && Possible(End(t, es[..|es| - 1]), es[|es| - 1]))
  }

  /** No switchover thread yet. */
  predicate Fresh(t: Threads) {
    !t.active && t.lastDemotionTs <= t.now && t.crew == NOBODY && t.main == AtGuard && t.demotedAt == None
  }

  const GRACE: real := 30.0

  /** What the guard of the heartbeat fallback tests of this node itself. */
  predicate GuardOpen(t: Threads) {
    t.main == AtGuard && t.role == NodeRole.Standby && !t.active && t.now - t.lastDemotionTs >= GRACE
  }

  /** What the guard is there to prevent: that it is open while a switchover of either kind runs on this node, or within
      thirty seconds of the node's last demotion, of whichever kind. */
  predicate Unguarded(t: Threads) {
    GuardOpen(t) && (t.crew.Inside() > 0 || (t.demotedAt.Some? && t.now < t.demotedAt.value + 30.0))
  }

  /* ---------------- what a history says ---------------- */

  predicate SetsFlag(e: Event) { e == Enter || e == Request }

  predicate ClearsFlag(e: Event) { e == Clear || e.Leave? }

  function Sets(es: seq<Event>): nat {
    if es == [] then 0 else Sets(es[..|es| - 1]) + if SetsFlag(es[|es| - 1]) then 1 else 0
  }

  function Clears(es: seq<Event>): nat {
    if es == [] then 0 else Clears(es[..|es| - 1]) + if ClearsFlag(es[|es| - 1]) then 1 else 0
  }

  /** The flag was written, and last to set it. */
  predicate LastSet(es: seq<Event>) {
    es != [] && (SetsFlag(es[|es| - 1]) || (!ClearsFlag(es[|es| - 1]) && LastSet(es[..|es| - 1])))
  }

  /** The time that has passed since the last time stamp, or `before` and all of it if there is none. */
  function SinceStamp(es: seq<Event>, before: real): real {
    if es == [] then before
    else
      match es[|es| - 1]
      case Clock(d) => SinceStamp(es[..|es| - 1], before) + d
      case Stamp(_) => 0.0
      case SelfStamp => 0.0
      case _ => SinceStamp(es[..|es| - 1], before)
  }

  /** A just-demoted role means that a thread has yet to stamp, that the main loop has, or that the stamp is up to
      date. */
  predicate StampDue(t: Threads) {
    && t.lastDemotionTs <= t.now
    && (t.demotedAt.Some? ==>
          && t.demotedAt.value <= t.now
          && (t.demotedAt.value <= t.lastDemotionTs || t.crew.Has(RoleSet) || t.main == SelfRoleSet))
  }

  lemma StampDueNext(t: Threads, e: Event)
    requires Possible(t, e) && StampDue(t)
    ensures StampDue(Next(t, e))
  {}

  lemma InsideNext(t: Threads, e: Event)
    requires Possible(t, e)
    ensures Next(t, e).crew.Inside()
         == t.crew.Inside() + (if SetsFlag(e) then 1 else 0) - (if ClearsFlag(e) then 1 else 0)
  {}

  lemma FlagNext(t: Threads, e: Event)
    requires Possible(t, e)
    ensures Next(t, e).active <==> SetsFlag(e) || (!ClearsFlag(e) && t.active)
  {}

  lemma ClockNext(t: Threads, e: Event)
    requires Possible(t, e)
    ensures var u := Next(t, e); var since := t.now - t.lastDemotionTs;
            u.now - u.lastDemotionTs == match e
                                        case Clock(d) => since + d
                                        case Stamp(_) => 0.0
                                        case SelfStamp => 0.0
                                        case _ => since
  {}

  lemma FreshOutside(t: Threads)
    requires Fresh(t)
    ensures !t.active && t.crew.Inside() == 0
  {}

  lemma FreshDue(t: Threads)
    requires Fresh(t)
    ensures StampDue(t)
  {}

  lemma {:induction false} HistorySays(t: Threads, es: seq<Event>)
    requires Fresh(t) && Trace(t, es)
    ensures var u := End(t, es);
            && (u.active <==> LastSet(es))
            && u.crew.Inside() == Sets(es) - Clears(es)
            && u.now - u.lastDemotionTs == SinceStamp(es, t.now - t.lastDemotionTs)
            && StampDue(u)
  {
    hide Next, Possible, StampDue, Crew.Inside, Fresh, SetsFlag, ClearsFlag;
    FreshOutside(t);
    FreshDue(t);
    if es != [] {
      var u, e := End(t, es[..|es| - 1]), es[|es| - 1];
      HistorySays(t, es[..|es| - 1]);
      FlagNext(u, e);
      ClockNext(u, e);
      InsideNext(u, e);
      StampDueNext(u, e);
    }
  }

  /** For every interleaving of any number of commands, requests, self-demotions and failovers: the guard is open when
      it should not be, if and only if the node is a STANDBY with its main loop at the guard, thirty seconds have
      passed since the last stamp, the flag was last written to clear it, and more threads have set it than have
      cleared it. */
  lemma GuardFailsExactly(t: Threads, es: seq<Event>)
    requires Fresh(t) && Trace(t, es)
    ensures var u := End(t, es);
            Unguarded(u) <==>
            && u.main == AtGuard && u.role == NodeRole.Standby
            && SinceStamp(es, t.now - t.lastDemotionTs) >= 30.0
            && !LastSet(es) && Sets(es) > Clears(es)
  {
    HistorySays(t, es);
  }

  /** No thread sets the flag while another that has set it is there. */
  predicate SingleFile(t: Threads, es: seq<Event>) {
    es == []
    || (SingleFile(t, es[..|es| - 1]) && (SetsFlag(es[|es| - 1]) ==> End(t, es[..|es| - 1]).crew.Inside() == 0))
  }

  lemma {:induction false} SingleFileFlag(t: Threads, es: seq<Event>)
    requires Fresh(t) && Trace(t, es) && SingleFile(t, es)
    ensures End(t, es).crew.Inside() <= 1 && (LastSet(es) <==> End(t, es).crew.Inside() == 1)
  {
    hide Next, Possible, Crew.Inside, Fresh;
    FreshOutside(t);
    if es != [] {
      SingleFileFlag(t, es[..|es| - 1]);
      InsideNext(End(t, es[..|es| - 1]), es[|es| - 1]);
    }
  }

  /** So as long as commands and requests come in single file the guard does its work. */
  lemma GraceHolds(t: Threads, es: seq<Event>)
    requires Fresh(t) && Trace(t, es) && SingleFile(t, es)
    ensures !Unguarded(End(t, es))
  {
    GuardFailsExactly(t, es);
    HistorySays(t, es);
    SingleFileFlag(t, es);
  }

  /* ---------------- what the first overlap opens ---------------- */

  /** The role is still unknown: nothing has begun that needs a role. */
  predicate Unborn(t: Threads) {
    t.crew.executing == 0 && t.crew.promoting == 0 && t.main == AtGuard
  }

  lemma RoleNext(t: Threads, e: Event)
    requires Possible(t, e) && (t.role == NodeRole.Unknown ==> Unborn(t))
    ensures Next(t, e).role == NodeRole.Unknown <==> t.role == NodeRole.Unknown
    ensures t.role == NodeRole.Unknown ==> Unborn(Next(t, e))
  {}

  /** No event makes a role known or unknown: only the election does. */
  lemma {:induction false} RoleKnown(t: Threads, es: seq<Event>)
    requires Trace(t, es) && (t.role == NodeRole.Unknown ==> Unborn(t))
    ensures End(t, es).role == NodeRole.Unknown <==> t.role == NodeRole.Unknown
    ensures t.role == NodeRole.Unknown ==> Unborn(End(t, es))
  {
    hide Next, Possible, Unborn;
    if es != [] {
      RoleKnown(t, es[..|es| - 1]);
      RoleNext(End(t, es[..|es| - 1]), es[|es| - 1]);
    }
  }

  lemma {:induction false} Append(t: Threads, xs: seq<Event>, ys: seq<Event>)
    requires Trace(t, xs) && SingleFile(t, xs) && Trace(End(t, xs), ys) && SingleFile(End(t, xs), ys)
    ensures Trace(t, xs + ys) && SingleFile(t, xs + ys) && End(t, xs + ys) == End(End(t, xs), ys)
    decreases |ys|
  {
    hide Next, Possible, Crew.Inside;
    if ys == [] {
      assert xs + ys == xs;
    } else {
      Append(t, xs, ys[..|ys| - 1]);
      assert (xs + ys)[..|xs + ys| - 1] == xs + ys[..|ys| - 1];
    }
  }

  lemma Start(t: Threads)
    ensures Trace(t, []) && SingleFile(t, []) && End(t, []) == t
  {}

  lemma Snoc(t: Threads, es: seq<Event>, e: Event, u: Threads)
    requires Trace(t, es) && Possible(End(t, es), e) && Next(End(t, es), e) == u
    ensures Trace(t, es + [e]) && End(t, es + [e]) == u
    ensures SingleFile(t, es) && !SetsFlag(e) ==> SingleFile(t, es + [e])
  {
    assert (es + [e])[..|es|] == es;
  }

  /** What follows starts no further thread, and leaves the node as said. */
  ghost predicate Leads(t: Threads, es: seq<Event>, u: Threads) {
    Trace(t, es) && SingleFile(t, es) && End(t, es) == u
  }

  lemma LeadsOne(t: Threads, e: Event)
    requires Possible(t, e) && !SetsFlag(e)
    ensures Leads(t, [] + [e], Next(t, e))
  {
    Start(t);
    Snoc(t, [], e, Next(t, e));
  }

  lemma LeadsOn(t: Threads, es: seq<Event>, u: Threads, e: Event)
    requires Leads(t, es, u) && Possible(u, e) && !SetsFlag(e)
    ensures Leads(t, es + [e], Next(u, e))
  {
    Snoc(t, es, e, Next(u, e));
  }

  lemma LeadsThrough(t: Threads, xs: seq<Event>, u: Threads, ys: seq<Event>, v: Threads)
    requires Leads(t, xs, u) && Leads(u, ys, v)
    ensures Leads(t, xs + ys, v)
  {
    Append(t, xs, ys);
  }

  /** Only the main loop moves: home from a self-demotion that has begun. */
  lemma ComesHome(t: Threads) returns (es: seq<Event>, u: Threads)
    requires t.role != NodeRole.Unknown && t.lastDemotionTs <= t.now
    ensures Leads(t, es, u)
    ensures u.main == AtGuard && u.role != NodeRole.Unknown && u.lastDemotionTs <= u.now
    ensures u.crew == t.crew && (t.main == SelfRunning ==> u.role == NodeRole.Standby) && u.active == t.active
    ensures t.main == AtGuard ==> u == t
  {
    hide Leads;
    match t.main
    case AtGuard =>
      es, u := [], t;
      LeadsNowhere(t);
    case SelfRunning =>
      var v := Next(t, SelfRole);
      LeadsOne(t, SelfRole);
      LeadsOn(t, [] + [SelfRole], v, SelfStamp);
      es, u := [] + [SelfRole] + [SelfStamp], Next(v, SelfStamp);
    case SelfRoleSet =>
      LeadsOne(t, SelfStamp);
      es, u := [] + [SelfStamp], Next(t, SelfStamp);
  }

  lemma LeadsNowhere(t: Threads)
    ensures Leads(t, [], t)
  {}

  /** Some thread that has set the flag. */
  lemma SomeInside(c: Crew) returns (p: Phase)
    requires c.Inside() > 0
    ensures p != Spawned && c.Has(p)
  {
    p := if c.entered > 0 then Entered
         else if c.executing > 0 then Executing
         else if c.roleSet > 0 then RoleSet
         else if c.stamped > 0 then Stamped
         else if c.waiting > 0 then Waiting
         else if c.promoting > 0 then Promoting
         else Promoted;
  }

  /** One thread less inside, the flag clear, and nothing else that matters. */
  predicate OneLess(t: Threads, u: Threads) {
    && u.crew.Inside() == t.crew.Inside() - 1 && !u.active && u.lastDemotionTs <= u.now
    && u.role == t.role && u.main == t.main
  }

  lemma LeavesAt(t: Threads, p: Phase) returns (es: seq<Event>, u: Threads)
    requires Possible(t, Leave(p)) && t.lastDemotionTs <= t.now
    ensures Leads(t, es, u) && OneLess(t, u)
  {
    hide Leads, Crew.Inside;
    LeadsOne(t, Leave(p));
    InsideNext(t, Leave(p));
    es, u := [] + [Leave(p)], Next(t, Leave(p));
  }

  lemma StampsAndClears(t: Threads, p: Phase) returns (es: seq<Event>, u: Threads)
    requires Possible(t, Stamp(p))
    ensures Leads(t, es, u) && OneLess(t, u)
  {
    hide Leads;
    var v := Next(t, Stamp(p));
    LeadsOne(t, Stamp(p));
    LeadsOn(t, [] + [Stamp(p)], v, Clear);
    es, u := [] + [Stamp(p)] + [Clear], Next(v, Clear);
  }

  lemma PromotionEnds(t: Threads, p: Phase) returns (es: seq<Event>, u: Threads)
    requires t.crew.Has(p) && p in {Waiting, Promoting, Promoted} && t.lastDemotionTs <= t.now
    ensures Leads(t, es, u) && OneLess(t, u)
  {
    hide Leads;
    if p == Waiting && t.role == NodeRole.Standby {
      var v := Next(t, Admit);
      LeadsOne(t, Admit);
      LeadsOn(t, [] + [Admit], v, Leave(Promoting));
      es, u := [] + [Admit] + [Leave(Promoting)], Next(v, Leave(Promoting));
    } else {
      es, u := LeavesAt(t, p);
    }
  }

  lemma EnteredEnds(t: Threads) returns (es: seq<Event>, u: Threads)
    requires t.crew.Has(Entered)
    ensures Leads(t, es, u) && OneLess(t, u)
  {
    hide Leads;
    if t.role == NodeRole.Primary {
      var v := Next(t, Begin);
      LeadsOne(t, Begin);
      var rest;
      rest, u := StampsAndClears(v, Executing);
      es := [] + [Begin] + rest;
      LeadsThrough(t, [] + [Begin], v, rest, u);
    } else {
      es, u := StampsAndClears(t, Entered);
    }
  }

  lemma StampedEnds(t: Threads) returns (es: seq<Event>, u: Threads)
    requires t.crew.Has(Stamped) && t.lastDemotionTs <= t.now
    ensures Leads(t, es, u) && OneLess(t, u)
  {
    LeadsOne(t, Clear);
    es, u := [] + [Clear], Next(t, Clear);
  }

  /** A thread that has set the flag can end, from wherever it stands, and clear it. */
  lemma OneEnds(t: Threads) returns (es: seq<Event>, u: Threads)
    requires t.crew.Inside() > 0 && t.lastDemotionTs <= t.now
    ensures Leads(t, es, u) && OneLess(t, u)
  {
    var p := SomeInside(t.crew);
    hide Leads, OneLess, Crew.Inside;
    match p
    case Entered => es, u := EnteredEnds(t);
    case Executing => es, u := StampsAndClears(t, p);
    case RoleSet => es, u := StampsAndClears(t, p);
    case Stamped => es, u := StampedEnds(t);
    case _ => es, u := PromotionEnds(t, p);
  }

  /** With the flag clear a PRIMARY can demote itself. */
  lemma StandsBy(t: Threads) returns (es: seq<Event>, u: Threads)
    requires t.main == AtGuard && t.role != NodeRole.Unknown && !t.active && t.lastDemotionTs <= t.now
    ensures Leads(t, es, u)
    ensures u.main == AtGuard && u.role == NodeRole.Standby && !u.active && u.lastDemotionTs <= u.now
    ensures u.crew == t.crew
  {
    hide Leads;
    if t.role == NodeRole.Standby {
      es, u := [], t;
      LeadsNowhere(t);
    } else {
      var v := Next(t, SelfBegin);
      LeadsOne(t, SelfBegin);
      var rest;
      rest, u := ComesHome(v);
      es := [] + [SelfBegin] + rest;
      LeadsThrough(t, [] + [SelfBegin], v, rest, u);
    }
  }

  /** Two threads inside: one ends, the other stays, and after thirty seconds as a STANDBY the guard is open. */
  lemma TwoInsideLoseGuard(t: Threads) returns (es: seq<Event>)
    requires t.crew.Inside() > 1 && t.role != NodeRole.Unknown && t.lastDemotionTs <= t.now
    ensures Trace(t, es) && SingleFile(t, es) && Unguarded(End(t, es))
  {
    hide Leads, Trace, End, SingleFile, Crew.Inside;
    var home, t1 := ComesHome(t);
    var ends, t2 := OneEnds(t1);
    LeadsThrough(t, home, t1, ends, t2);
    var stands, t3 := StandsBy(t2);
    LeadsThrough(t, home + ends, t2, stands, t3);
    LeadsOn(t, home + ends + stands, t3, Clock(GRACE));
    es := home + ends + stands + [Clock(GRACE)];
    LeadsTo(t, es, Next(t3, Clock(GRACE)));
  }

  lemma LeadsTo(t: Threads, es: seq<Event>, u: Threads)
    requires Leads(t, es, u)
    ensures Trace(t, es) && SingleFile(t, es) && End(t, es) == u
  {}

  /** The overlap and nothing else. After a history in which threads set the flag in single file, an event opens the way
      to a guard that is open when it should not be, with no further overlap, if and only if it sets the flag while
      another thread that has set it is there, on a node that has been elected. */
  lemma GraceLostExactly(t: Threads, es: seq<Event>, e: Event)
    requires Fresh(t) && Trace(t, es) && SingleFile(t, es) && Possible(End(t, es), e)
    ensures var u := Next(End(t, es), e);
            SetsFlag(e) && End(t, es).crew.Inside() > 0 && t.role != NodeRole.Unknown <==>
            exists more :: Trace(u, more) && SingleFile(u, more) && Unguarded(End(u, more))
  {
    hide Next, Possible, Crew.Inside, Trace, End, SingleFile, Unguarded;
    FreshUnborn(t);
    RoleKnown(t, es);
    HistorySays(t, es);
    var v := End(t, es);
    var u := Next(v, e);
    InsideNext(v, e);
    RoleNext(v, e);
    StampDueNext(v, e);
    if SetsFlag(e) && v.crew.Inside() > 0 && t.role != NodeRole.Unknown {
      OneMore(v, e);
      var more := TwoInsideLoseGuard(u);
    } else {
      forall more | Trace(u, more) && SingleFile(u, more) ensures !Unguarded(End(u, more)) {
        if t.role == NodeRole.Unknown {
          RoleKnown(u, more);
          UnknownGuarded(End(u, more));
        } else {
          OneMoreEvent(t, es, e);
          Append(t, es + [e], more);
          GraceHolds(t, es + [e] + more);
        }
      }
    }
  }

  lemma FreshUnborn(t: Threads)
    requires Fresh(t)
    ensures Unborn(t)
  {}

  lemma OneMore(t: Threads, e: Event)
    requires Possible(t, e) && SetsFlag(e) && t.crew.Inside() > 0
    ensures Next(t, e).crew.Inside() > 1
  {
    InsideNext(t, e);
  }

  lemma UnknownGuarded(t: Threads)
    requires t.role == NodeRole.Unknown
    ensures !Unguarded(t)
  {}

  lemma OneMoreEvent(t: Threads, es: seq<Event>, e: Event)
    requires Trace(t, es) && SingleFile(t, es) && Possible(End(t, es), e)
    requires SetsFlag(e) ==> End(t, es).crew.Inside() == 0
    ensures Trace(t, es + [e]) && SingleFile(t, es + [e]) && End(t, es + [e]) == Next(End(t, es), e)
  {
    assert (es + [e])[..|es|] == es;
  }

  /* ---------------- three ways to fail ---------------- */

  lemma Executes(t: Threads) returns (es: seq<Event>)
    requires Fresh(t) && t.role == NodeRole.Primary
    ensures es == [] + [Dispatch] + [Enter] + [Begin]
    ensures Trace(t, es) && End(t, es) == t.(crew := NOBODY.(executing := 1), active := true)
  {
    hide Trace, End;
    Start(t);
    Snoc(t, [], Dispatch, t.(crew := NOBODY.(spawned := 1)));
    Snoc(t, [] + [Dispatch], Enter, t.(crew := NOBODY.(entered := 1), active := true));
    es := [] + [Dispatch] + [Enter];
    Snoc(t, es, Begin, t.(crew := NOBODY.(executing := 1), active := true));
    es := es + [Begin];
  }

  /** A stale request handled while the node is still demoting: its thread is refused and clears the demotion's flag. */
  lemma StaleRequestOpensGuard(t: Threads) returns (es: seq<Event>)
    requires Fresh(t) && t.role == NodeRole.Primary && t.now - t.lastDemotionTs >= GRACE
    ensures es == [] + [Dispatch] + [Enter] + [Begin] + [Request] + [Leave(Waiting)] + [DemoteRole]
    ensures Trace(t, es) && Unguarded(End(t, es)) && End(t, es).demotedAt == Some(End(t, es).now)
  {
    hide Trace, End;
    es := Executes(t);
    Snoc(t, es, Request, t.(crew := NOBODY.(executing := 1, waiting := 1), active := true));
    var t5 := t.(crew := NOBODY.(executing := 1));
    Snoc(t, es + [Request], Leave(Waiting), t5);
    var t6 := t5.(crew := NOBODY.(roleSet := 1), role := NodeRole.Standby, demotedAt := Some(t.now));
    Snoc(t, es + [Request] + [Leave(Waiting)], DemoteRole, t6);
    es := es + [Request] + [Leave(Waiting)] + [DemoteRole];
  }

  lemma BothWait(t: Threads) returns (es: seq<Event>)
    requires Fresh(t)
    ensures es == [] + [Request] + [Request]
    ensures Trace(t, es) && End(t, es) == t.(crew := NOBODY.(waiting := 2), active := true)
  {
    hide Trace, End;
    Start(t);
    Snoc(t, [], Request, t.(crew := NOBODY.(waiting := 1), active := true));
    Snoc(t, [] + [Request], Request, t.(crew := NOBODY.(waiting := 2), active := true));
    es := [] + [Request] + [Request];
  }

  /** Two requests on an idle standby: the first promotion to end clears the flag of the other. */
  lemma TwoRequestsOpenGuard(t: Threads) returns (es: seq<Event>)
    requires Fresh(t) && t.role == NodeRole.Standby && t.now - t.lastDemotionTs >= GRACE
    ensures es == [] + [Request] + [Request] + [Admit] + [Admit] + [Leave(Promoting)]
    ensures Trace(t, es) && Unguarded(End(t, es)) && End(t, es).crew.Has(Promoting)
  {
    hide Trace, End;
    es := BothWait(t);
    Snoc(t, es, Admit, t.(crew := NOBODY.(waiting := 1, promoting := 1), active := true));
    Snoc(t, es + [Admit], Admit, t.(crew := NOBODY.(promoting := 2), active := true));
    Snoc(t, es + [Admit] + [Admit], Leave(Promoting), t.(crew := NOBODY.(promoting := 1)));
    es := es + [Admit] + [Admit] + [Leave(Promoting)];
  }

  lemma BothEnter(t: Threads) returns (es: seq<Event>)
    requires Fresh(t) && t.role == NodeRole.Primary
    ensures es == [] + [Dispatch] + [Dispatch] + [Enter] + [Enter]
    ensures Trace(t, es) && End(t, es) == t.(crew := NOBODY.(entered := 2), active := true)
  {
    hide Trace, End;
    Start(t);
    Snoc(t, [], Dispatch, t.(crew := NOBODY.(spawned := 1)));
    Snoc(t, [] + [Dispatch], Dispatch, t.(crew := NOBODY.(spawned := 2)));
    es := [] + [Dispatch] + [Dispatch];
    Snoc(t, es, Enter, t.(crew := NOBODY.(spawned := 1, entered := 1), active := true));
    Snoc(t, es + [Enter], Enter, t.(crew := NOBODY.(entered := 2), active := true));
    es := es + [Enter] + [Enter];
  }

  lemma BothExecute(t: Threads) returns (es: seq<Event>)
    requires Fresh(t) && t.role == NodeRole.Primary
    ensures es == [] + [Dispatch] + [Dispatch] + [Enter] + [Enter] + [Begin] + [Begin]
    ensures Trace(t, es) && End(t, es) == t.(crew := NOBODY.(executing := 2), active := true)
  {
    hide Trace, End;
    es := BothEnter(t);
    Snoc(t, es, Begin, t.(crew := NOBODY.(entered := 1, executing := 1), active := true));
    Snoc(t, es + [Begin], Begin, t.(crew := NOBODY.(executing := 2), active := true));
    es := es + [Begin] + [Begin];
  }

  /** Two commands before the first thread has set the flag: both demote, the first to end clears the flag, and thirty
      seconds later the guard is open under the other. */
  lemma TwoCommandsOpenGuard(t: Threads) returns (es: seq<Event>)
    requires Fresh(t) && t.role == NodeRole.Primary
    ensures es == [] + [Dispatch] + [Dispatch] + [Enter] + [Enter] + [Begin] + [Begin]
                  + [DemoteRole] + [Stamp(RoleSet)] + [Clear] + [Clock(GRACE)]
    ensures Trace(t, es) && Unguarded(End(t, es)) && End(t, es).crew.Has(Executing)
  {
    hide Trace, End;
    var six := BothExecute(t);
    var t6 := t.(crew := NOBODY.(executing := 2), active := true);
    var t7 := t6.(crew := NOBODY.(executing := 1, roleSet := 1), role := NodeRole.Standby, demotedAt := Some(t.now));
    Snoc(t, six, DemoteRole, t7);
    var t8 := t7.(crew := NOBODY.(executing := 1, stamped := 1), lastDemotionTs := t.now);
    Snoc(t, six + [DemoteRole], Stamp(RoleSet), t8);
    var t9 := t8.(crew := NOBODY.(executing := 1), active := false);
    es := six + [DemoteRole] + [Stamp(RoleSet)];
    Snoc(t, es, Clear, t9);
    var t10 := t9.(now := t.now + GRACE);
    Snoc(t, es + [Clear], Clock(GRACE), t10);
    es := es + [Clear] + [Clock(GRACE)];
  }
}
