/** monitor/postgres.py and monitor/os_monitor.py: failure counters, against the history they summarise. */
module Monitors {
  import opened Basics
  import opened Models

  /** How many checks at the end of the history failed in a row. */
  function TrailingFailures(oks: seq<bool>): nat {
    if oks == [] || oks[|oks| - 1] then 0 else 1 + TrailingFailures(oks[..|oks| - 1])
  }

  /** It is the longest failed suffix: the last k failed, and the one before, if any, did not. */
  lemma {:induction false} TrailingFailuresSpec(oks: seq<bool>, k: nat)
    ensures k == TrailingFailures(oks) <==>
            && k <= |oks|
            && (forall i :: |oks| - k <= i < |oks| ==> !oks[i])
            && (k < |oks| ==> oks[|oks| - k - 1])
  {
    if oks != [] && !oks[|oks| - 1] && k > 0 {
      var rest := oks[..|oks| - 1];
      TrailingFailuresSpec(rest, k - 1);
      if k <= |oks| {
        assert forall i :: |oks| - k <= i < |rest| ==> oks[i] == rest[i];
      }
    }
  }

  lemma AtLeastSuffix(oks: seq<bool>, k: nat)
    ensures TrailingFailures(oks) >= k <==> k <= |oks| && forall i :: |oks| - k <= i < |oks| ==> !oks[i]
  {
    var t := TrailingFailures(oks);
    TrailingFailuresSpec(oks, t);
    if k > t && k <= |oks| {
      assert oks[|oks| - t - 1];
    }
  }

  /* ---------------- PostgreSQL ---------------- */

  datatype PgSnapshot = PgSnapshot(ok: bool, state: PgState)

  datatype PgMon = PgMon(active: bool, snapshot: Option<PgSnapshot>, failCount: nat)

  datatype MonEvent = Checked(snap: PgSnapshot) | Reset | SetActive(on: bool)

  const FRESH := PgMon(false, None, 0)

  function MonNext(m: PgMon, e: MonEvent): PgMon {
    match e
    case Checked(snap) =>
      if !m.active then m
      else PgMon(true, Some(snap), if snap.ok then 0 else m.failCount + 1)
    case Reset => PgMon(m.active, None, 0)
    case SetActive(on) => if on then m.(active := true) else PgMon(false, None, 0)
  }

  function MonAfter(hist: seq<MonEvent>): PgMon {
    if hist == [] then FRESH else MonNext(MonAfter(hist[..|hist| - 1]), hist[|hist| - 1])
  }

  /** Whether checks were enabled last. */
  function Active(hist: seq<MonEvent>): bool {
    if hist == [] then false
    else if hist[|hist| - 1].SetActive? then hist[|hist| - 1].on
    else Active(hist[..|hist| - 1])
  }

  /** The snapshots of the checks made since the last reset or deactivation. */
  function ChecksSince(hist: seq<MonEvent>): seq<PgSnapshot> {
    if hist == [] then []
    else
      var before := hist[..|hist| - 1];
      match hist[|hist| - 1]
      case Reset => []
      case SetActive(on) => if on then ChecksSince(before) else []
      case Checked(snap) => if Active(before) then ChecksSince(before) + [snap] else ChecksSince(before)
  }

  function Oks(snaps: seq<PgSnapshot>): seq<bool> {
    seq(|snaps|, i requires 0 <= i < |snaps| => snaps[i].ok)
  }

  /** For every history, the counter is the length of the trailing run of failed checks, and the snapshot the last
      check, both since the last reset or deactivation. */
  lemma {:induction false} PgMonitorRefines(hist: seq<MonEvent>)
    ensures MonAfter(hist).active == Active(hist)
    ensures MonAfter(hist).failCount == TrailingFailures(Oks(ChecksSince(hist)))
    ensures var c := ChecksSince(hist);
            MonAfter(hist).snapshot == if c == [] then None else Some(c[|c| - 1])
  {
    if hist != [] {
      var before := hist[..|hist| - 1];
      PgMonitorRefines(before);
      match hist[|hist| - 1]
      case Checked(snap) =>
        if Active(before) {
          var c := ChecksSince(before);
          assert Oks(c + [snap])[..|c|] == Oks(c);
        }
      case _ =>
    }
  }

  /** The main loop's test for self-demotion as far as the monitor decides it. */
  predicate FailedEnough(m: PgMon, threshold: int) {
    m.snapshot.Some? && !m.snapshot.value.ok && m.failCount >= threshold
  }

  /** For a positive threshold it holds exactly when that many checks have been made since the last reset or
      deactivation and the last ones, as many as the threshold, all failed. */
  lemma FailedEnoughExactly(hist: seq<MonEvent>, threshold: nat)
    requires threshold > 0
    ensures var c := ChecksSince(hist);
            FailedEnough(MonAfter(hist), threshold) <==>
            threshold <= |c| && forall i :: |c| - threshold <= i < |c| ==> !c[i].ok
  {
    var c := ChecksSince(hist);
    PgMonitorRefines(hist);
    AtLeastSuffix(Oks(c), threshold);
    assert forall i :: 0 <= i < |c| ==> Oks(c)[i] == c[i].ok;
  }

  class PostgresMonitor {
    var snapshot: Option<PgSnapshot>
    var failCount: nat
    var active: bool
    ghost var history: seq<MonEvent>

    ghost function State(): PgMon
      reads this
    {
      PgMon(active, snapshot, failCount)
    }

    ghost predicate Valid()
      reads this
    {
      State() == MonAfter(history)
    }

    constructor ()
      ensures Valid() && history == []
    {
      snapshot, failCount, active, history := None, 0, false, [];
    }

    method ResetCounters()
      requires Valid()
      modifies this
      ensures Valid() && history == old(history) + [Reset]
    {
      snapshot := None;
      failCount := 0;
      history := history + [Reset];
    }

    method Activate(on: bool)
      requires Valid()
      modifies this
      ensures Valid() && history == old(history) + [SetActive(on)]
    {
      active := on;
      if !on {
        snapshot := None;
        failCount := 0;
      }
      history := history + [SetActive(on)];
    }

    /** One round of the loop; `snap` is what a check would find. */
    method Round(snap: PgSnapshot)
      requires Valid()
      modifies this
      ensures Valid() && history == old(history) + [Checked(snap)]
    {
      if active {
        snapshot := Some(snap);
        if !snap.ok {
          failCount := failCount + 1;
        } else {
          failCount := 0;
        }
      }
      history := history + [Checked(snap)];
    }

    /** What the main loop and the monitor's own thread do to it while another thread is busy elsewhere. */
    method Happen(events: seq<MonEvent>)
      requires Valid()
      modifies this
      ensures Valid() && history == old(history) + events
    {
      var i := 0;
      while i < |events|
        invariant 0 <= i <= |events|
        invariant Valid() && history == old(history) + events[..i]
      {
        match events[i] {
          case Checked(snap) => Round(snap);
          case Reset => ResetCounters();
          case SetActive(on) => Activate(on);
        }
        i := i + 1;
      }
    }
  }

  /** The monitor is on exactly when the last switch was to on, whatever was checked or reset since. */
  lemma {:induction false} LastSwitchDecides(before: seq<MonEvent>, on: bool, since: seq<MonEvent>)
    requires forall e <- since :: !e.SetActive?
    ensures Active(before + [SetActive(on)] + since) == on
    decreases |since|
  {
    var hist := before + [SetActive(on)] + since;
    if since == [] {
      assert hist == before + [SetActive(on)];
    } else {
      var init := since[..|since| - 1];
      LastSwitchDecides(before, on, init);
      assert hist[..|hist| - 1] == before + [SetActive(on)] + init;
      assert hist[|hist| - 1] == since[|since| - 1] && since[|since| - 1] in since;
    }
  }

  /* ---------------- operating system ---------------- */

  datatype OsSample = OsSample(cpuPct: real, memPct: real, diskPct: real)

  datatype OsLimits = OsLimits(cpu: real, mem: real, disk: real, failCount: int)

  predicate WithinLimits(s: OsSample, l: OsLimits) {
    s.cpuPct < l.cpu && s.memPct < l.mem && s.diskPct < l.disk
  }

  function OsOks(samples: seq<OsSample>, l: OsLimits): seq<bool> {
    seq(|samples|, i requires 0 <= i < |samples| => WithinLimits(samples[i], l))
  }

  class OsMonitor {
    const limits: OsLimits
    var violationCount: nat
    ghost var samples: seq<OsSample>

    ghost predicate Valid()
      reads this
    {
      violationCount == TrailingFailures(OsOks(samples, limits))
    }

    constructor (limits: OsLimits)
      ensures Valid() && samples == [] && this.limits == limits
    {
      this.limits := limits;
      violationCount, samples := 0, [];
    }

    /** Degraded exactly when at least the configured number of samples at the end all broke a limit. */
    method Collect(s: OsSample) returns (degraded: bool)
      requires Valid()
      modifies this
      ensures Valid() && samples == old(samples) + [s]
      ensures limits.failCount > 0 ==>
              (degraded <==> limits.failCount <= |samples|
                             && forall i :: |samples| - limits.failCount <= i < |samples| ==>
                                  !WithinLimits(samples[i], limits))
      ensures limits.failCount <= 0 ==> degraded
    {
      var violations := 0;
      if s.cpuPct >= limits.cpu { violations := violations + 1; }
      if s.memPct >= limits.mem { violations := violations + 1; }
      if s.diskPct >= limits.disk { violations := violations + 1; }
      if violations > 0 {
        violationCount := violationCount + 1;
      } else {
        violationCount := 0;
      }
      samples := samples + [s];
      assert OsOks(samples, limits)[..|samples| - 1] == OsOks(old(samples), limits);
      degraded := violationCount >= limits.failCount;
      if limits.failCount > 0 {
        AtLeastSuffix(OsOks(samples, limits), limits.failCount);
        assert forall i :: 0 <= i < |samples| ==> OsOks(samples, limits)[i] == WithinLimits(samples[i], limits);
      }
    }
  }
}
