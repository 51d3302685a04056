/** gcp/network.py: editing one NIC's alias list with optimistic concurrency, while outside writers may edit it
    between any two calls. */
module Network {
  import opened Basics
  import opened Aliases
  import opened Calls

  /** The NIC as the API keeps it; every accepted edit changes the fingerprint. */
  datatype NicState = NicState(aliases: seq<string>, fingerprint: nat)

  /** What happens around attempt k: an outside writer's edit just before the PATCH and just before the re-fetch, the
      answer to a PATCH with a current fingerprint, and whether waiting for the operation and the re-fetch succeed. */
  datatype NicEnv = NicEnv(
    beforePatch: nat -> Option<seq<string>>,
    beforeFetch: nat -> Option<seq<string>>,
    answer: nat -> nat,
    waitOk: nat -> bool,
    fetchOk: nat -> bool)

  ghost predicate Quiet(env: NicEnv) {
    forall k :: env.beforePatch(k) == None && env.beforeFetch(k) == None
  }

  function Outside(s: NicState, e: Option<seq<string>>): NicState {
    match e
    case None => s
    case Some(list) => NicState(list, s.fingerprint + 1)
  }

  /** 412 unless the fingerprint is current; otherwise what the server has to say. */
  function Status(s: NicState, stamp: nat, answer: nat): nat {
    if stamp != s.fingerprint then 412 else answer
  }

  predicate Retryable(status: nat) {
    status == 409 || status == 412 || status == 429
  }

  /** `accepted`: a PATCH was answered 200, and `base` is the list it replaced; ok: the loop returned normally;
      `last`: the last answer. */
  datatype Patched = Patched(ok: bool, accepted: bool, base: seq<string>, calls: nat, waited: nat, last: nat)

  datatype Ran = Ran(nic: NicState, p: Patched)

  /** The PATCH loop from a given attempt on. */
  function PatchRun(s: NicState, stamp: nat, list: seq<string>, attempt: nat, n: nat, env: NicEnv, waited: nat): Ran
    requires attempt >= 1
    decreases n + 1 - attempt
  {
    if attempt > n then Ran(s, Patched(true, false, s.aliases, attempt - 1, waited, 0))
    else
      var t := Outside(s, env.beforePatch(attempt));
      var status := Status(t, stamp, env.answer(attempt));
      if status == 200 then
        Ran(NicState(list, t.fingerprint + 1), Patched(env.waitOk(attempt), true, t.aliases, attempt, waited, status))
      else if !Retryable(status) || attempt == n then Ran(t, Patched(false, false, t.aliases, attempt, waited, status))
      else
        var u := Outside(t, env.beforeFetch(attempt));
        if !env.fetchOk(attempt) then Ran(u, Patched(false, false, u.aliases, attempt, waited + 2 * attempt, status))
        else PatchRun(u, u.fingerprint, list, attempt + 1, n, env, waited + 2 * attempt)
  }

  class Nic {
    var aliases: seq<string>
    var fingerprint: nat

    constructor (aliases: seq<string>)
      ensures this.aliases == aliases
    {
      this.aliases, fingerprint := aliases, 0;
    }

    ghost function State(): NicState
      reads this
    {
      NicState(aliases, fingerprint)
    }

    method OutsideEdit(e: Option<seq<string>>)
      modifies this
      ensures State() == Outside(old(State()), e)
    {
      if e.Some? {
        aliases, fingerprint := e.value, fingerprint + 1;
      }
    }

    method Patch(stamp: nat, list: seq<string>, answer: nat) returns (status: nat)
      modifies this
      ensures status == Status(old(State()), stamp, answer)
      ensures State() == if status == 200 then NicState(list, old(fingerprint) + 1) else old(State())
    {
      status := if stamp != fingerprint then 412 else answer;
      if status == 200 {
        aliases, fingerprint := list, fingerprint + 1;
      }
    }
  }

  method PatchNicAliases(nic: Nic, stamp: nat, list: seq<string>, n: nat, env: NicEnv) returns (p: Patched)
    modifies nic
    ensures Ran(nic.State(), p) == PatchRun(old(nic.State()), stamp, list, 1, n, env, 0)
  {
    var fingerprint, attempt := stamp, 1;
    var waited: nat := 0;
    while attempt <= n
      invariant attempt >= 1
      invariant PatchRun(nic.State(), fingerprint, list, attempt, n, env, waited)
             == PatchRun(old(nic.State()), stamp, list, 1, n, env, 0)
      decreases n + 1 - attempt
    {
      nic.OutsideEdit(env.beforePatch(attempt));
      var base := nic.aliases;
      var status := nic.Patch(fingerprint, list, env.answer(attempt));
      if status == 200 {
        return Patched(env.waitOk(attempt), true, base, attempt, waited, status);
      }
      if !Retryable(status) || attempt == n {
        return Patched(false, false, nic.aliases, attempt, waited, status);
      }
      waited := waited + 2 * attempt;
      nic.OutsideEdit(env.beforeFetch(attempt));
      if !env.fetchOk(attempt) {
        return Patched(false, false, nic.aliases, attempt, waited, status);
      }
      fingerprint := nic.fingerprint;
      attempt := attempt + 1;
    }
    p := Patched(true, false, nic.aliases, attempt - 1, waited, 0);
  }

  lemma WaitsMonotone(a: nat, n: nat)
    requires 1 <= a <= n
    ensures a * (a - 1) <= n * (n - 1)
    ensures a < n ==> a * (a + 1) <= n * (n - 1)
  {
    assert a * (a - 1) <= a * (n - 1) <= n * (n - 1);
    if a < n {
      assert a * (a + 1) <= (n - 1) * (a + 1) <= (n - 1) * n;
    }
  }

  /** For n >= 1 the loop makes between one and n calls, waits 2k seconds after the k-th and n(n-1) in all at most, and
      returns normally only after a 200, which leaves the list that was sent. It gives up only on the n-th call, on an
      answer other than 409, 412 and 429, or when the re-fetch fails. */
  lemma {:induction false} PatchBounds(s: NicState, stamp: nat, list: seq<string>, attempt: nat, n: nat, env: NicEnv)
    requires 1 <= attempt <= n
    ensures var r := PatchRun(s, stamp, list, attempt, n, env, attempt * (attempt - 1)); var c := r.p.calls;
            && attempt <= c <= n && r.p.waited <= n * (n - 1)
            && (r.p.waited == c * (c - 1) || (!r.p.accepted && c < n && r.p.waited == c * (c + 1)))
            && (r.p.ok ==> r.p.accepted)
            && (r.p.accepted <==> r.p.last == 200)
            && (r.p.accepted ==> r.nic.aliases == list && r.p.ok == env.waitOk(c))
            && (!r.p.accepted ==> c == n || r.p.last !in {409, 412, 429} || !env.fetchOk(c))
    decreases n - attempt
  {
    WaitsMonotone(attempt, n);
    if attempt < n {
      var u := Outside(Outside(s, env.beforePatch(attempt)), env.beforeFetch(attempt));
      assert attempt * (attempt - 1) + 2 * attempt == (attempt + 1) * attempt;
      PatchBounds(u, u.fingerprint, list, attempt + 1, n, env);
    }
  }

  /** The answer to call number c, made with the fingerprint fetched just before it: 412 if an outside writer came in
      between, and otherwise what the server has to say. */
  function Answered(env: NicEnv, c: nat): nat {
    if env.beforePatch(c).Some? then 412 else env.answer(c)
  }

  /** The loop goes on exactly after a 409, 412 or 429 that is not the last call's and with a re-fetch that works; it
      ends with the answer of its last call, accepted if and only if that is 200, and returns normally if in addition
      the wait for the operation does. */
  lemma {:induction false} PatchStopsExactly(s: NicState, list: seq<string>, attempt: nat, n: nat, env: NicEnv,
                                             waited: nat)
    requires 1 <= attempt <= n
    ensures var p := PatchRun(s, s.fingerprint, list, attempt, n, env, waited).p; var c := p.calls;
            && attempt <= c <= n
            && (forall j :: attempt <= j < c ==> Answered(env, j) in {409, 412, 429} && env.fetchOk(j))
            && (c == n || Answered(env, c) !in {409, 412, 429} || !env.fetchOk(c))
            && p.last == Answered(env, c)
            && (p.accepted <==> Answered(env, c) == 200)
            && (p.ok <==> Answered(env, c) == 200 && env.waitOk(c))
    decreases n - attempt
  {
    if attempt < n {
      var u := Outside(Outside(s, env.beforePatch(attempt)), env.beforeFetch(attempt));
      PatchStopsExactly(u, list, attempt + 1, n, env, waited + 2 * attempt);
    }
  }

  /** The NIC as it was fetched together with the fingerprint that call number c sends, given how it was fetched for
      call number a. */
  function FetchedFor(s: NicState, env: NicEnv, a: nat, c: nat): NicState
    decreases c - a
  {
    if c <= a then s else FetchedFor(Outside(Outside(s, env.beforePatch(a)), env.beforeFetch(a)), env, a + 1, c)
  }

  /** The NIC as call number c meets it. */
  function Met(s: NicState, env: NicEnv, a: nat, c: nat): NicState {
    Outside(FetchedFor(s, env, a, c), env.beforePatch(c))
  }

  /** In every run an accepted PATCH replaced the very list that was fetched with the fingerprint it sent, and left the
      list sent; a loop that gave up left what the outside writers made of the NIC, and nothing of its own. */
  lemma {:induction false} PatchReplacesFetched(s: NicState, list: seq<string>, attempt: nat, n: nat, env: NicEnv,
                                                waited: nat)
    requires 1 <= attempt <= n
    ensures var r := PatchRun(s, s.fingerprint, list, attempt, n, env, waited); var c := r.p.calls;
            && attempt <= c <= n
            && if r.p.accepted then
                 && r.nic.aliases == list
                 && r.p.base == FetchedFor(s, env, attempt, c).aliases
               else if c < n && r.p.last in {409, 412, 429} then
                 r.nic == Outside(Met(s, env, attempt, c), env.beforeFetch(c))
               else r.nic == Met(s, env, attempt, c)
    decreases n + 1 - attempt
  {
    if attempt < n {
      var u := Outside(Outside(s, env.beforePatch(attempt)), env.beforeFetch(attempt));
      PatchReplacesFetched(u, list, attempt + 1, n, env, waited + 2 * attempt);
    }
  }

  /** Without outside writers nothing but an accepted PATCH changes the list. */
  lemma {:induction false} PatchQuiet(s: NicState, stamp: nat, list: seq<string>, attempt: nat, n: nat, env: NicEnv,
                                      waited: nat)
    requires attempt >= 1 && Quiet(env)
    ensures var r := PatchRun(s, stamp, list, attempt, n, env, waited);
            if r.p.accepted then r.p.base == s.aliases && r.nic.aliases == list else r.nic.aliases == s.aliases
    decreases n + 1 - attempt
  {
    if attempt < n {
      PatchQuiet(s, s.fingerprint, list, attempt + 1, n, env, waited + 2 * attempt);
    }
  }

  const MAX_RETRIES: nat := 3

  datatype Edit = AddVip | RemoveVip

  function Edited(xs: seq<string>, vip: string, e: Edit): seq<string> {
    match e
    case AddVip => Aliases.With(xs, vip)
    case RemoveVip => Without(xs, vip)
  }

  lemma NoAttempt(s: NicState, list: seq<string>, env: NicEnv)
    ensures !PatchRun(s, s.fingerprint, list, 1, 0, env, 0).p.accepted
  {}

  /** What the fetched list, compared with the first read, has to look like for the list computed from that read still
      to be right: for a removal the same but for the VIP, for an addition the read itself or with the VIP appended. */
  predicate StillRight(read: seq<string>, fetched: seq<string>, vip: string, e: Edit) {
    match e
    case AddVip => fetched == read || fetched == read + [vip]
    case RemoveVip => SameButVip(read, fetched, vip)
  }

  lemma StillRightExactly(read: seq<string>, fetched: seq<string>, vip: string, e: Edit)
    requires e == AddVip ==> vip !in read
    ensures Edited(read, vip, e) == Edited(fetched, vip, e) <==> StillRight(read, fetched, vip, e)
  {
    match e
    case AddVip =>
      if vip !in fetched && read + [vip] == fetched + [vip] {
        assert read == (read + [vip])[..|read|] && fetched == (fetched + [vip])[..|fetched|];
      }
    case RemoveVip => SameButVipIsWithout(read, fetched, vip);
  }

  /** A retried PATCH sends the list computed from the first read, with a fingerprint fetched later. For every
      behaviour of the outside writers and the server: what an accepted PATCH leaves is the edit of the list it
      replaced if and only if the list fetched with the last fingerprint, of which the loop uses the fingerprint
      alone, is still right. */
  lemma RetryIsEditExactly(s: NicState, vip: string, e: Edit, n: nat, env: NicEnv)
    requires e == AddVip ==> vip !in s.aliases
    ensures var r := PatchRun(s, s.fingerprint, Edited(s.aliases, vip, e), 1, n, env, 0);
            r.p.accepted ==>
              (r.nic.aliases == Edited(r.p.base, vip, e) <==>
                StillRight(s.aliases, FetchedFor(s, env, 1, r.p.calls).aliases, vip, e))
  {
    hide PatchRun, Edited, StillRight;
    var r := PatchRun(s, s.fingerprint, Edited(s.aliases, vip, e), 1, n, env, 0);
    if n == 0 {
      NoAttempt(s, Edited(s.aliases, vip, e), env);
    } else {
      PatchReplacesFetched(s, Edited(s.aliases, vip, e), 1, n, env, 0);
      StillRightExactly(s.aliases, r.p.base, vip, e);
    }
  }

  /** Read, edit, PATCH. Reading and the final look at the result may raise; `e` says which of the two edits it is.
      Without outside writers the list ends either edited or as it was, and edited if no call raised. With them, an
      accepted PATCH leaves the edit of the list it replaced if and only if the list last fetched is still right, and
      so always when it was accepted on the first call. */
  method EditAliases(nic: Nic, vip: string, e: Edit, env: NicEnv, readOk: bool, verifyOk: bool)
      returns (ok: bool, p: Patched)
    modifies nic
    ensures p.accepted ==> nic.aliases == Edited(old(nic.aliases), vip, e)
    ensures p.accepted ==> p.base == FetchedFor(old(nic.State()), env, 1, p.calls).aliases
    ensures p.accepted ==>
              (nic.aliases == Edited(p.base, vip, e) <==>
                StillRight(old(nic.aliases), FetchedFor(old(nic.State()), env, 1, p.calls).aliases, vip, e))
    ensures p.accepted && p.calls == 1 ==> nic.aliases == Edited(p.base, vip, e)
    ensures Quiet(env) ==>
            && nic.aliases in {old(nic.aliases), Edited(old(nic.aliases), vip, e)}
            && (ok ==> nic.aliases == Edited(old(nic.aliases), vip, e))
    ensures p.calls <= 3 && p.waited <= 6
    ensures p.calls > 0 <==> readOk && (old(vip in nic.aliases) <==> e == RemoveVip)
    ensures ok <==> readOk && (p.calls == 0 || (p.accepted && env.waitOk(p.calls) && verifyOk))
    ensures p.calls > 0 ==> (p.accepted <==> Answered(env, p.calls) == 200)
  {
    hide PatchRun, StillRight, SameButVip;
    p := Patched(false, false, nic.aliases, 0, 0, 0);
    if !readOk {
      return false, p;
    }
    WithoutSpec(nic.aliases, vip);
    var present := vip in nic.aliases;
    if present == (e == AddVip) {
      return true, p;
    }
    var list := Edited(nic.aliases, vip, e);
    PatchBounds(nic.State(), nic.fingerprint, list, 1, MAX_RETRIES, env);
    PatchReplacesFetched(nic.State(), list, 1, MAX_RETRIES, env, 0);
    PatchStopsExactly(nic.State(), list, 1, MAX_RETRIES, env, 0);
    RetryIsEditExactly(nic.State(), vip, e, MAX_RETRIES, env);
    if Quiet(env) {
      PatchQuiet(nic.State(), nic.fingerprint, list, 1, MAX_RETRIES, env, 0);
    }
    p := PatchNicAliases(nic, nic.fingerprint, list, MAX_RETRIES, env);
    ok := p.ok && verifyOk;
  }

  /** So an alias that an outside writer adds between the read and a retry is lost. */
  lemma LostUpdate(vip: string, other: string)
    requires vip != other
    ensures exists env: NicEnv ::
            var r := PatchRun(NicState([vip], 0), 0, Without([vip], vip), 1, MAX_RETRIES, env, 0);
            && r.p.ok && r.p.calls == 2
            && other in r.p.base && other in Edited(r.p.base, vip, RemoveVip)
            && other !in r.nic.aliases
  {
    var env := NicEnv(k => if k == 1 then Some([vip, other]) else None, k => None, k => 200, k => true, k => true);
    var s := NicState([vip], 0);
    var u := Outside(s, env.beforePatch(1));
    assert Outside(u, env.beforeFetch(1)) == u;
    var r := PatchRun(u, 1, Without([vip], vip), 2, MAX_RETRIES, env, 2);
    assert r.p == Patched(true, true, [vip, other], 2, 2, 200);
    assert PatchRun(s, 0, Without([vip], vip), 1, MAX_RETRIES, env, 0) == r;
    WithoutSpec([vip, other], vip);
    WithoutSpec([vip], vip);
  }

  /* ---------------- waiting for an operation ---------------- */

  datatype Poll = Pending | DoneOk | DoneError | PollRaises

  datatype Waited = Completed | OperationFailed | TimedOut

  ghost predicate PendingBefore(polls: nat -> Poll, clock: nat -> real, timeout: real, k: nat) {
    forall j :: 0 <= j < k ==> polls(j) == Pending && clock(j) < timeout
  }

  /** Poll until done or out of time. `clock(k)` is the time since the start at the k-th look at the clock; between two
      looks lies a sleep. Exactly one of three things has happened first: a poll in time said done, one in time said
      failed or raised, or the clock passed the timeout with every poll before it pending. The k-th poll is the last. */
  method WaitZoneOp(polls: nat -> Poll, clock: nat -> real, timeout: real, interval: real) returns (r: Waited, k: nat)
    requires interval >= 1.0 && forall j: nat :: clock(j + 1) >= clock(j) + interval
    ensures PendingBefore(polls, clock, timeout, k)
    ensures match r
            case Completed => clock(k) < timeout && polls(k) == DoneOk
            case OperationFailed => clock(k) < timeout && polls(k) in {DoneError, PollRaises}
            case TimedOut => clock(k) >= timeout
  {
    k := 0;
    while clock(k) < timeout
      invariant PendingBefore(polls, clock, timeout, k)
      decreases timeout - clock(k)
    {
      match polls(k) {
        case DoneOk => return Completed, k;
        case DoneError => return OperationFailed, k;
        case PollRaises => return OperationFailed, k;
        case Pending =>
      }
      k := k + 1;
    }
    r := TimedOut;
  }

  /* ---------------- two NICs ---------------- */

  datatype Op = Acquire(a: bool) | Release(a: bool)   // a: by the first node

  datatype Nics = Nics(first: seq<string>, second: seq<string>)

  function Apply(s: Nics, op: Op, vip: string): Nics {
    match op
    case Acquire(a) =>
      if a then Nics(Aliases.With(s.first, vip), Without(s.second, vip))
      else Nics(Without(s.first, vip), Aliases.With(s.second, vip))
    case Release(a) =>
      if a then s.(first := Without(s.first, vip)) else s.(second := Without(s.second, vip))
  }

  /** The two operations are the calls of the engines, each made with success. */
  lemma ApplyIsCalls(s: Site, a: bool)
    ensures var t := Calls.AddVip(ReleaseVipFromPeer(s, DONE).site, DONE).site;
            Apply(Nics(s.mine, s.peers), Acquire(true), s.vip) == Nics(t.mine, t.peers)
    ensures var t := ReleaseVip(s, DONE).site;
            Apply(Nics(s.mine, s.peers), Release(true), s.vip) == Nics(t.mine, t.peers)
    ensures Apply(Nics(s.mine, s.peers), Acquire(a), s.vip) ==
            var t := Apply(Nics(s.peers, s.mine), Acquire(!a), s.vip); Nics(t.second, t.first)
    ensures Apply(Nics(s.mine, s.peers), Release(a), s.vip) ==
            var t := Apply(Nics(s.peers, s.mine), Release(!a), s.vip); Nics(t.second, t.first)
  {
    WithoutSpec(s.peers, s.vip);
  }

  function ApplyAll(s: Nics, ops: seq<Op>, vip: string): Nics {
    if ops == [] then s else Apply(ApplyAll(s, ops[..|ops| - 1], vip), ops[|ops| - 1], vip)
  }

  predicate VipOnce(s: Nics, vip: string) {
    Count(s.first, vip) + Count(s.second, vip) <= 1
  }

  predicate SameOthers(s: Nics, t: Nics, vip: string) {
    Without(t.first, vip) == Without(s.first, vip) && Without(t.second, vip) == Without(s.second, vip)
  }

  /** The VIP is on exactly the NIC of the node that acquired. */
  predicate OnlyOn(s: Nics, a: bool, vip: string) {
    Count(s.first, vip) == (if a then 1 else 0) && Count(s.second, vip) == (if a then 0 else 1)
  }

  lemma ApplyKeeps(s: Nics, op: Op, vip: string)
    requires VipOnce(s, vip)
    ensures var t := Apply(s, op, vip);
            VipOnce(t, vip) && SameOthers(s, t, vip) && (op.Acquire? ==> OnlyOn(t, op.a, vip))
  {
    EditsKeepOthers(s.first, vip);
    EditsKeepOthers(s.second, vip);
    EditCounts(s.first, vip);
    EditCounts(s.second, vip);
  }

  lemma ApplyTwice(s: Nics, op: Op, vip: string)
    ensures Apply(Apply(s, op, vip), op, vip) == Apply(s, op, vip)
  {
    WithoutSpec(s.first, vip);
    WithoutSpec(s.second, vip);
    WithoutSpec(Without(s.first, vip), vip);
    WithoutSpec(Without(s.second, vip), vip);
  }

  /** Any sequence of whole acquisitions and releases: the VIP is never there twice, an acquisition leaves it on
      exactly the caller, doing the last operation again changes nothing, and the other aliases keep values and order
      on both NICs. */
  lemma {:induction false} VipFollowsLastAcquire(s: Nics, ops: seq<Op>, vip: string)
    requires VipOnce(s, vip)
    ensures var t := ApplyAll(s, ops, vip);
            VipOnce(t, vip) && SameOthers(s, t, vip)
    ensures ops != [] ==>
            var t := ApplyAll(s, ops, vip); var op := ops[|ops| - 1];
            Apply(t, op, vip) == t && (op.Acquire? ==> OnlyOn(t, op.a, vip))
  {
    hide Apply;
    if ops != [] {
      var u := ApplyAll(s, ops[..|ops| - 1], vip);
      VipFollowsLastAcquire(s, ops[..|ops| - 1], vip);
      ApplyKeeps(u, ops[|ops| - 1], vip);
      ApplyTwice(u, ops[|ops| - 1], vip);
    }
  }
}
