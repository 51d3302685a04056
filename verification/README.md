# A verified model of pgha

pgha moves one shared regional disk, one virtual IP (VIP) and one PostgreSQL instance between two
virtual machines. Each machine runs a daemon with a monitor, a heartbeat, a main loop and three
engines: planned switchover, automatic failover and startup election. This project models both
daemons against the shared cloud state and proves what they keep over every run.

## How it is built

- `Models`, `LocalNodes`, `Aliases`, `Calls`, `Resources`: the recorded state of a node, the alias
  list of a NIC, and what one resource call does. A call is given an outcome by the environment:
  whether it took effect, how it came back, and whether the look-up it makes first failed. The three
  are independent, so a call may raise although it took effect or return although it did not.
- `Protocol`: both nodes as one transition system. An action is one engine step on one node together
  with the environment's answer, a SWITCHOVER_REQUEST handled or lost, the main loop writing what its
  monitors show into the record while an engine is between steps, a crash of the machine, or a restart
  of the daemon alone, with mount and server still up. Requests may be delayed without limit. What
  starts an engine is guarded only by the role and by the engine being idle, and what the main loop
  writes is left open, so the runs include all those of the real daemons under the assumption below,
  and more. `Daemon.PassIsObserve` and `Daemon.DemotingPassIsRun` place a pass of the main loop there.
- `Exclusivity`, `VipExclusivity`, `Layering`, `Causality`, `Handover`, `Recovery`: theorems over all runs.
- `Switchover`, `Failover`, `Election`, `Daemon`, with the classes and their loops; each method is
  proved equal to a specification function, `SwitchoverFacts`, `FailoverFacts` and `Election` state
  what those functions promise, and every uninterrupted execution is shown to be a run of `Protocol`.
- `Outcomes`: the same executions read off the environment's answers, without those functions. Per engine
  a list says which calls come back, given when they skip; the first that does not is where the engine
  stops, and a site says what the calls made up to there leave. Equality holds for every input.
- `Fallback`: the main loop's heartbeat fallback, against `Grace` and against what `Heartbeat` has received.
- `Network`, `Heartbeat`, `Monitors`, `Grace`: the PATCH loop, the peer view and watchdog, the
  failure counters, and any number of threads that share the switchover flag.
- `Limits`: runs that break a guarantee once the named condition is dropped.

Every theorem over runs starts from any two idle nodes, whatever their roles, that satisfy the property
in question, and holds for runs of any length.

## Assumptions, and which theorem uses them

- One engine sequence at a time on a node: all of `Protocol`. The daemon does not enforce it;
  `Limits.TwoPromotionsOnOneNode` shows what happens without it. `Grace`, about the flag and the stamp,
  has any number of switchover threads at once.
- `Exclusivity.UnmountContract`: an unmount that returns has unmounted, one done to undo or to
  self-demote succeeds, and a mount that raises in a promotion mounted nothing. Used by
  `MountExclusiveExactly`. Nothing else is assumed there: attach, detach, PostgreSQL and VIP calls and
  holder queries may lie.
- `Exclusivity.DiskContract`: in addition an attach or mount that returns took effect and a detach that
  raises did not. Used by `RecordExclusiveExactly` and the theorems on switchovers; `Limits.LateDetach`
  shows the need.
- A truthful holder query in a promotion: part of `Exclusivity.Planned`, used by `SwitchoverExclusivity`.
- `VipExclusivity.VipContract`: the look at the peer's NIC works, and a removal there that returns took
  effect. Used by `VipExclusive`, `VipLostExactly`, `SwitchoverVip` and `AcquisitionLands`; not by
  `VipOnceExactly`.
- `Layering.ServerContract`: stops that return or undo take effect, a promotion's failed start leaves
  no server.
- `Handover.ReleaseContract`: a release of a switchover that returns took effect, and the look-up before the
  detach works. Used by `RequestMeansFree`.
- `Handover.Watched`: what a pass of the main loop writes is what the refresh makes of the monitor's history at that
  time, any history. Used by `RequestSaysStoppedExactly`.
- `FailoverFacts.HonestScript`, `Election.HonestElection`: a call that returns took effect, and the look at the
  peer's NIC works. Used by `FailoverBuilds` and `ElectedPrimaryHasAll`.
- An alias is its CIDR range. The code writes every entry back as that alone and drops any other attribute
  an existing entry has (src/pgha/gcp/network.py:182, 200); `OtherAliasesConserved` and the lemmas of
  `Aliases` and `Network` say nothing about such attributes.
- A device is mountable only while the disk is attached to the machine (the wait for the device).

Where the code and its documentation differ the code is followed: in the switchover the VIP is released
before PostgreSQL is stopped, although the module's header lists it last, and a failed failover does not
clean up, although its header says it attempts to.

## Findings

- Exclusive use of the disk is lost exactly when a fence, a failover attach, an election attach or a
  promotion attach after a failed holder query takes the disk from a node that still uses it
  (src/pgha/gcp/disk.py:198-285): `Exclusivity.MountExclusiveExactly`.
- A self-demotion detaches two steps before it corrects its record, so a request delivered in between
  leaves two nodes that are PRIMARY and record the disk as attached (src/pgha/daemon.py:511-526):
  `Limits.TwoRecords`, with the exact condition in `Exclusivity.SwitchoverRecordsExactly`.
- The VIP can end on both NICs once the disk has been taken from a node that had mounted it and not yet
  added the VIP, and only then (src/pgha/gcp/network.py:85-118): `VipExclusivity.VipLostExactly`.
- A pass of the main loop during a switchover may record a server that has been stopped as running
  (src/pgha/daemon.py:312-318): `Handover.RequestSaysStoppedExactly`.
- The grace period fails when two switchover threads overlap: a request handled by a demoting node, two
  requests, or two commands before the first thread has set the flag (src/pgha/daemon.py:414-423,
  541-552, 626-638, 791-804): `Grace.GuardFailsExactly`, `Grace.GraceLostExactly`.
- A retried PATCH sends the list computed from the first read, so an alias added meanwhile is lost. The
  loop re-fetches the list with the fingerprint and looks at the fingerprint alone; comparing the lists
  there decides it (src/pgha/gcp/network.py:258-266): `Network.RetryIsEditExactly`, `Network.LostUpdate`.
- An attach that times out in the startup election escapes `elect`
  (src/pgha/cluster/election.py:141-159): `Election.ElectionCoherent`.
- The heartbeat sequence number is never compared, so a late datagram puts an older record back
  (src/pgha/heartbeat.py:206-213): `Heartbeat.ViewNeverGoesBackExactly`.

## Model

| member | source | states |
|---|---|---|
| Models.HeartbeatRoundTrip | src/pgha/models.py:68-89 | what the receiver decodes is what the sender encoded, for every message |
| Models.DecodesExactly | src/pgha/models.py:80-89 | a dictionary decodes to a message exactly when it says it: no key is optional and no unknown enumeration value is let through |
| LocalNodes.LocalNode.constructor | src/pgha/cluster/node.py:45-55 | a node starts with everything unknown |
| LocalNodes.LocalNode.SetRole | src/pgha/cluster/node.py:61-66 | changes the role and nothing else |
| LocalNodes.LocalNode.SetHealth | src/pgha/cluster/node.py:68-73 | changes the health and nothing else |
| LocalNodes.LocalNode.SetPgState | src/pgha/cluster/node.py:75-80 | changes the PostgreSQL state and nothing else |
| LocalNodes.LocalNode.SetDiskState | src/pgha/cluster/node.py:82-87 | changes the disk state and nothing else |
| LocalNodes.LocalNode.Snapshot | src/pgha/cluster/node.py:98-102 | the state as it is, unaffected by later setters |
| Resources.Managers.AttachDiskRw | src/pgha/gcp/disk.py:241-285 | skips when already ours, otherwise takes the disk from whoever holds it |
| Resources.Managers.DetachDisk | src/pgha/gcp/disk.py:287-315 | ends this node's attachment only, and skips when there is none or it cannot be seen |
| Resources.Managers.ForceDetach | src/pgha/gcp/disk.py:198-239 | ends the peer's attachment only |
| Resources.Managers.MountDisk | src/pgha/gcp/disk.py:321-372 | needs the device, skips a healthy mount, remounts a stale one |
| Resources.Managers.UnmountDisk | src/pgha/gcp/disk.py:374-413 | skips when not mounted |
| Resources.Managers.StartPg | src/pgha/gcp/disk.py:433-467 | skips when the server is seen running |
| Resources.Managers.StopPg | src/pgha/gcp/disk.py:469-487 | may return without having stopped the server |
| Resources.Managers.KillUsers | src/pgha/daemon.py:431-496 | may take the server down and never raises |
| Resources.Managers.DropVip | src/pgha/gcp/network.py:102-109 | removes the VIP from this node's NIC and keeps the other aliases |
| Resources.Managers.FreeVipFromPeer | src/pgha/gcp/network.py:111-118 | removes the VIP from the peer's NIC if it is seen there |
| Resources.Managers.TakeVip | src/pgha/gcp/network.py:170-186 | appends the VIP to this node's NIC unless it is there |
| Aliases.EditsKeepOthers | src/pgha/gcp/network.py:170-205 | adding and removing keep all other aliases and their order, and removing is idempotent |
| Aliases.RemoveUndoesAdd | src/pgha/gcp/network.py:170-205 | removing undoes adding exactly when the VIP was not there before |
| Aliases.EditCounts | src/pgha/gcp/network.py:170-205 | after a removal the VIP is absent; an addition never doubles it |
| Network.PatchNicAliases | src/pgha/gcp/network.py:211-270 | the retry loop follows its specification with outside edits before every PATCH and every re-fetch |
| Network.PatchBounds | src/pgha/gcp/network.py:238-270 | for n >= 1: between one and n calls, at most n(n-1) seconds of waiting, normal return only after a 200 that left the list sent; it gives up only on the n-th call, on an answer that is not 409, 412 or 429, or when the re-fetch fails |
| Network.PatchStopsExactly | src/pgha/gcp/network.py:238-270 | the loop goes on exactly after a 409, 412 or 429 that is not the last call's and with a re-fetch that works; it returns normally exactly on a 200 whose operation completes |
| Network.PatchReplacesFetched | src/pgha/gcp/network.py:236-266 | in every run, whatever outside writers and the server do, an accepted PATCH replaced the very list that was fetched with the fingerprint it sent, and a loop that gave up has changed nothing |
| Aliases.SameButVipIsWithout | src/pgha/gcp/network.py:188-205 | two lists give the same list once the VIP is removed if and only if, walked side by side, they differ in VIP entries only |
| Network.PatchQuiet | src/pgha/gcp/network.py:211-270 | without outside writers only an accepted PATCH changes the list |
| Network.EditAliases | src/pgha/gcp/network.py:170-205 | the list ends edited or as it was, and the method returns normally exactly when there was nothing to do or the PATCH was accepted, completed and confirmed; an accepted PATCH leaves the edit of the list at acceptance exactly when the list last fetched is still right, and always on the first call |
| Network.RetryIsEditExactly | src/pgha/gcp/network.py:258-266 | over every run of the loop: an accepted PATCH leaves the edit of the list it replaced if and only if the list fetched with the last fingerprint differs from the first read in VIP entries only (removal), or is that read or that read with the VIP appended (addition) |
| Network.LostUpdate | src/pgha/gcp/network.py:258-266 | an alias an outside writer adds between the read and a retry is lost |
| Network.WaitZoneOp | src/pgha/gcp/network.py:276-304 | an operation is reported done, failed or timed out by what happens first |
| Network.VipFollowsLastAcquire | src/pgha/gcp/network.py:85-118 | over any sequence of whole acquisitions and releases: never twice, on exactly the last acquirer, other aliases kept |
| Network.ApplyIsCalls | src/pgha/gcp/network.py:85-118 | these whole operations are the engines' calls, each made with success |
| Protocol.ViewsAfter | src/pgha/ha/switchover.py:84-166 | an engine step changes its own node, the attachment and the two alias lists, and nothing else of the peer but its inbox |
| Exclusivity.TakesExactly | src/pgha/gcp/disk.py:118-285 | the disk moves away from the other node exactly when a fence that finds it there, a failover or election attach, or a promotion attach after a failed holder query takes effect |
| Exclusivity.MountExclusiveExactly | src/pgha/ha/switchover.py:98-117 | over every run of all engines: a mounted node holds the disk throughout if and only if no action takes the disk from a mounted node |
| Exclusivity.RecordExclusiveExactly | src/pgha/ha/switchover.py:140-185 | over every run of all engines: mount and recorded attachment belong to the holder throughout, to the letter, if and only if no action takes the disk from a node that has it mounted or recorded and no self-demotion detaches it while its record still says attached |
| Exclusivity.SwitchoverExclusivity | src/pgha/ha/switchover.py:256-268 | any number of switchovers and self-demotions with late, stale or lost requests: no promotion takes the disk from its holder, never two mounted nodes, and, leaving out a self-demoting node between its detach and its disk-state step, never two nodes recording the disk |
| Exclusivity.SwitchoverRecords | src/pgha/ha/switchover.py:98-117 | without self-demotions the record to the letter: ATTACHED_RW means holding the disk in every state, so never two nodes PRIMARY and ATTACHED_RW |
| Exclusivity.SwitchoverRecordsExactly | src/pgha/daemon.py:511-526 | with self-demotions that holds in every state if and only if no self-demotion's detach takes effect while its record says attached |
| Layering.LayeredThroughout | src/pgha/ha/switchover.py:98-185 | wherever PostgreSQL runs the filesystem is mounted, and the disk attached unless taken while mounted; DETACH is reached only stopped and unmounted |
| VipExclusivity.VipExclusive | src/pgha/gcp/network.py:85-118 | although an acquisition is two calls, the VIP is on at most one NIC and at most once in every run that takes the disk from no node between its mount and its addition of the VIP |
| VipExclusivity.VipLostExactly | src/pgha/gcp/network.py:85-118 | after such a run and one more action, calls that keep their contract can bring the VIP to both NICs without another takeover if and only if that action was a takeover from such a node |
| VipExclusivity.VipOnceExactly | src/pgha/gcp/network.py:170-186 | over every run, whatever calls answer: the VIP is on at most one NIC throughout if and only if no adding call takes effect while the peer's list, looked at just before, has the VIP and this node's has not |
| VipExclusivity.AcquisitionLands | src/pgha/gcp/network.py:85-118 | an acquisition that adds leaves the VIP once on its own NIC and not on the peer's |
| VipExclusivity.SwitchoverVip | src/pgha/ha/switchover.py:303-307 | planned runs keep the VIP on at most one NIC without further condition |
| VipExclusivity.OtherAliasesConserved | src/pgha/gcp/network.py:170-205 | no run changes another alias of either NIC or their order |
| Causality.RequestAfterRelease | src/pgha/ha/switchover.py:98-106 | a SWITCHOVER_REQUEST is sent only after VIP_RELEASE, PG_STOP, UMOUNT and DETACH returned, in order, in the same sequence |
| Causality.RequestsConserved | src/pgha/ha/switchover.py:225-243 | in every run the requests on their way to a node are those sent to it less those handled or lost |
| Causality.HeartbeatAfterRelease | src/pgha/daemon.py:508-526 | a former PRIMARY seen in another role had attempted every release of that demotion first, on both demotion paths |
| Handover.RequestMeansFree | src/pgha/ha/switchover.py:98-106 | whenever a SWITCHOVER_REQUEST is sent, the sender runs no server, has nothing mounted, does not hold the disk and has no VIP, and its record says PRIMARY and DETACHED |
| Handover.RequestSaysStoppedExactly | src/pgha/daemon.py:312-318 | its record then says STOPPED if and only if since PG_STOP no pass of the main loop found a check made since the monitor was last switched off, or the last pass to find one found PostgreSQL stopped |
| Handover.RequestWhileRecordedRunning | src/pgha/daemon.py:312-318 | a pass after PG_STOP that writes down an earlier good check makes it say RUNNING_PRIMARY |
| Causality.RoleMove | src/pgha/ha/switchover.py:246-250 | apart from a crash a PRIMARY stops being one only in DEMOTE or in the role step of a self-demotion |
| Recovery.SelfDemotionExactly | src/pgha/daemon.py:312-340 | the main loop self-demotes exactly when an unblocked PRIMARY's last checks, as many as the threshold, all failed |
| Recovery.RemainingStep | src/pgha/daemon.py:498-528 | the measure: no event raises it, and each own step, missing failing check or due pass lowers it by one |
| Recovery.TurnExists | src/pgha/daemon.py:296-340 | until it has settled the node always has a turn that lowers the measure |
| Recovery.Converges | src/pgha/daemon.py:317-340 | after the missing failing checks, one pass and its steps, a failed PRIMARY is STANDBY, DETACHED and STOPPED without disk, mount or VIP, whatever the peer does meanwhile; if the peer had taken over and gives nothing up, the disk is still its own and the VIP on exactly its NIC |
| Recovery.ConvergesAfterSwitchover | src/pgha/daemon.py:312-340 | the same from a switchover attempt that left the node PRIMARY, whether its monitor is then off or on again, after one more pass |
| Recovery.GivesUpExactly | src/pgha/ha/switchover.py:98-106 | a node with the disk and the VIP keeps both in a step of its own unless that is one of its release calls taking effect |
| Recovery.PeerHasAlong | src/pgha/daemon.py:511-526 | along a whole recovery a peer with the disk and the VIP that gives nothing up keeps both |
| Recovery.PeerUntouched | src/pgha/daemon.py:511-526 | along a whole recovery without events of its own the peer is left exactly as it was |
| Recovery.StoppedPrimaryStaysStopped | src/pgha/ha/switchover.py:108-117 | a PRIMARY with PostgreSQL stopped never starts it again while it stays PRIMARY |
| Switchover.SwitchoverEngine.ExecuteAsPrimary | src/pgha/ha/switchover.py:84-122 | runs the steps in order up to the first that raises; refuses on a node that is not PRIMARY |
| Switchover.SwitchoverEngine.ExecuteAsStandby | src/pgha/ha/switchover.py:128-166 | runs the promotion and on a failure undoes the completed steps; refuses on a node that is not STANDBY |
| Switchover.SwitchoverEngine.RollbackPromotion | src/pgha/ha/switchover.py:168-185 | undoes exactly the completed steps in reverse, past undo calls that raise |
| Switchover.SwitchoverEngine.StartWithRetry | src/pgha/ha/switchover.py:273-301 | the start attempts, call by call |
| Outcomes.StartTriesExactly | src/pgha/ha/switchover.py:273-301 | the first answer within three attempts that is not a RuntimeError decides: success exactly on a return, no call after it, a timeout not repeated, three RuntimeErrors three calls and a failure |
| Switchover.SwitchoverEngine.DoDemote | src/pgha/ha/switchover.py:191-250 | one step on the primary side, recorded only if it returns |
| Switchover.SwitchoverEngine.DoPromote | src/pgha/ha/switchover.py:256-313 | one step on the standby side; ATTACH refuses while the peer is seen to hold the disk |
| SwitchoverFacts.DemoteRunResult | src/pgha/ha/switchover.py:84-122 | ends STANDBY with everything recorded as given up, or keeps role and health; never touches the peer's NIC or attachment |
| Outcomes.DemoteRunExactly | src/pgha/ha/switchover.py:84-122 | stops at the first call that does not come back, succeeds exactly when there is none, and leaves the effects of the calls made and the records of those that came back |
| Outcomes.PromoteRunExactly | src/pgha/ha/switchover.py:128-166 | succeeds exactly when the peer is not seen to hold the disk and every call comes back; otherwise stops at the first that does not and undoes exactly the steps before it |
| Outcomes.UndoRunExactly | src/pgha/ha/switchover.py:168-185 | rollback leaves each undo call's effect, whichever of them raise |
| SwitchoverFacts.RollbackExact | src/pgha/ha/switchover.py:148-185 | a failed promotion of a clean standby restores its whole view exactly; a successful one adds disk, mount, server, VIP and role and nothing else |
| SwitchoverFacts.UndoIgnoresRaises | src/pgha/ha/switchover.py:168-185 | which undo calls raise makes no difference to what rollback does to the resources |
| SwitchoverFacts.StartRetryIsOneCall | src/pgha/ha/switchover.py:273-301 | the attempts together are one step of the protocol |
| SwitchoverFacts.PromotionIsRun | src/pgha/ha/switchover.py:140-161 | an uninterrupted promotion, rollback included, is a run of the protocol, with the very answers given |
| SwitchoverFacts.DemotionIsRun | src/pgha/ha/switchover.py:98-117 | so is an uninterrupted demotion, with the very answers given |
| Failover.FailoverEngine.ShouldAttempt | src/pgha/ha/failover.py:81-97 | only a standby below the attempt limit and out of back-off |
| Failover.FailoverEngine.Execute | src/pgha/ha/failover.py:99-154 | charges the budget, runs the steps, skips fencing on request, resets the budget on success |
| Failover.FailoverEngine.StepAttach | src/pgha/ha/failover.py:267-296 | the attach loop with its doubling, capped back-off, call by call and second by second |
| Failover.FailoverEngine.DoStep | src/pgha/ha/failover.py:160-336 | one named step, the peer check included |
| Failover.AttachLoop | src/pgha/ha/failover.py:276-296 | succeeds exactly when the first answer that is not busy is a success, makes no call after it, and sleeps within the closed bound, with equality when all are busy; a disk already here answers at once |
| Failover.AttachTriesExactly | src/pgha/ha/failover.py:276-296 | the loop's calls, waiting, answer and attachment, also when a busy answer had attached after all |
| Failover.TotalBackoffClosed | src/pgha/ha/failover.py:277-294 | the waits sum to 3(2^k-1) up to four and 30 more each beyond |
| Failover.FailoverTrace | src/pgha/ha/failover.py:122-154 | the steps begun are a prefix of the list, all of it on success; PRIMARY exactly then, with attachment and server recorded by this run; a failure keeps the role and sets FAILED |
| Failover.FencedOnlyIf | src/pgha/ha/failover.py:192-254 | the peer is fenced exactly when not skipped, its status is known, and it is down or its PostgreSQL port is silent |
| FailoverFacts.BudgetKept | src/pgha/ha/failover.py:81-112 | the counter is the trailing run of failures, at most three, and an attempt after a failure starts at least 30 seconds later |
| FailoverFacts.BudgetAbsorbs | src/pgha/ha/failover.py:88-91 | three failures in a row are final |
| FailoverFacts.RefusedExactly | src/pgha/ha/failover.py:81-97 | nothing else refuses a standby |
| FailoverFacts.FailoverBuilds | src/pgha/ha/failover.py:122-154 | a failover that succeeds, fenced or not, leaves this node with the disk, the mount, a server and the VIP, and the peer without the VIP |
| Outcomes.FailRunExactly | src/pgha/ha/failover.py:99-154 | succeeds exactly when VERIFY passes and every later call comes back or skips; begins a step exactly when all before it came back; and what each call left |
| Outcomes.RaisedFenceEnds | src/pgha/ha/failover.py:227-254 | a fence that finds the disk at the peer and raises ends the failover with FAILED before any attach |
| FailoverFacts.FailoverIsRun | src/pgha/ha/failover.py:133-154 | an uninterrupted failover with all its retries is a run of the protocol, with the very answers given |
| Election.ElectionManager.RunElection | src/pgha/cluster/election.py:64-85 | resumes, stands by or competes according to the holder seen |
| Election.ElectionManager.PrimaryFrom | src/pgha/cluster/election.py:91-128 | mounts, starts, acquires and settles, or undoes and stands by |
| Election.ElectionManager.BecomeStandby | src/pgha/cluster/election.py:130-139 | records a standby with nothing attached or running |
| Election.ElectionCoherent | src/pgha/cluster/election.py:64-159 | ends in exactly one of two coherent records, PRIMARY if and only if every call on the path returned and the peer was not seen to hold the disk, unless the first attach fails with something that is not a RuntimeError |
| Outcomes.ElectExactly | src/pgha/cluster/election.py:64-159 | which calls have to come back for PRIMARY, and what is left otherwise, read off the answers alone |
| Election.FailedElectionReleases | src/pgha/cluster/election.py:111-128 | a failed election whose undo works leaves no server and no mount, also on a node that came with both; one that stands by at once touches neither |
| Election.ElectedPrimaryHasAll | src/pgha/cluster/election.py:91-109 | an election that ends in PRIMARY leaves the node with disk, mount, server and VIP, and the peer without the VIP |
| Election.ElectionNeverDetaches | src/pgha/cluster/election.py:119-128 | nothing in an election undoes the attachment |
| Election.ElectionIsRun | src/pgha/cluster/election.py:64-159 | an uninterrupted election is a run of the protocol, with the very answers given |
| Daemon.PgHaDaemon.CommandSwitchover | src/pgha/daemon.py:791-804 | the operator's command is refused exactly in maintenance, off a PRIMARY, or while a switchover runs, in this order |
| Daemon.PgHaDaemon.RunSwitchover | src/pgha/daemon.py:414-423 | whatever the engine does, the stamp is set and the flag cleared; the monitor is switched off at the start, and what happens to it meanwhile stands |
| Daemon.PgHaDaemon.RunSwitchoverAsStandby | src/pgha/daemon.py:541-552 | the flag is cleared however the promotion ends, and the stamp is left alone |
| Daemon.PgHaDaemon.HandlePeerDead | src/pgha/daemon.py:388-405 | a failover with fencing starts exactly on a standby outside maintenance within its budget |
| Daemon.PgHaDaemon.HandlePgFailHandoff | src/pgha/daemon.py:640-669 | a failover without fencing starts exactly when no switchover is active, outside maintenance, on a standby within its budget |
| Daemon.PgHaDaemon.SelfDemoteAfterPgFailure | src/pgha/daemon.py:498-528 | every release is attempted, then the record, the monitor and the stamp are set |
| Daemon.PgHaDaemon.RefreshFromMonitor | src/pgha/daemon.py:312-340 | the record follows the monitor's snapshot and the decision its counter |
| Daemon.PgHaDaemon.HeartbeatFallback | src/pgha/daemon.py:355-384 | the fallback starts exactly on a standby out of grace whose live peer shows STANDBY and DETACHED, with no switchover and no maintenance, within the budget |
| Daemon.PgHaDaemon.MainLoopPass | src/pgha/daemon.py:310-384 | one pass as a whole |
| Daemon.PassMeans | src/pgha/daemon.py:310-384 | a pass never self-demotes and falls back in one, and demotes exactly on enough failed checks |
| Daemon.PassRecords | src/pgha/daemon.py:312-343 | without a demotion a PRIMARY's record shows the last check since the last reset, a good one heals it, and an overloaded system shows as degraded |
| Daemon.PassIsObserve | src/pgha/daemon.py:312-343 | such a pass is one action of the protocol, whatever engine is running |
| Daemon.DemotingPassIsRun | src/pgha/daemon.py:317-343 | a pass that self-demotes is a run of the protocol |
| Daemon.SelfRunRecords | src/pgha/daemon.py:517-526 | whatever the release calls answer the record ends STANDBY, DETACHED, STOPPED, HEALTHY |
| Outcomes.SelfRunExactly | src/pgha/daemon.py:508-526 | for every vector of replies every release is made: what is left depends on which take effect and not on which raise |
| Outcomes.SelfDemotionReleases | src/pgha/daemon.py:508-521 | when the VIP release, the stop or the kill, the unmount and the detach take effect, server, mount, attachment and VIP are gone whatever raised |
| Outcomes.DemotingPassExactly | src/pgha/daemon.py:317-343 | a pass that self-demotes leaves exactly that, with the monitor off and the stamp set |
| Fallback.FallbackExactly | src/pgha/daemon.py:355-384 | a pass falls back exactly when the guard of the grace theorems is open, there is no maintenance, the live peer shows STANDBY and DETACHED, and the budget allows it |
| Fallback.FallbackKeepsGrace | src/pgha/daemon.py:355-384 | as long as threads set the flag in single file, no pass falls back while a switchover runs on the node or within 30 seconds of its last demotion |
| Fallback.FallbackMeansGaveUp | src/pgha/daemon.py:363-372 | a fallback means that the peer was STANDBY and DETACHED when it sent the datagram that arrived last |
| Fallback.DemotionBegins | src/pgha/daemon.py:317-340 | a pass self-demotes only where the threads let a self-demotion begin, and not in maintenance |
| Daemon.SelfDemotionIsRun | src/pgha/daemon.py:511-526 | an uninterrupted self-demotion is a run of the protocol, with the very answers given |
| Grace.GraceHolds | src/pgha/daemon.py:355-384 | as long as no thread sets the flag while another that has set it is there, the fallback's guard is never open during a switchover nor within 30 seconds of a demotion |
| Grace.GraceLostExactly | src/pgha/daemon.py:414-423 | after such a history an event lets the guard come to be open when it should not, without a further overlap, if and only if it sets the flag while another thread that has set it is there, on a node that has been elected |
| Grace.GuardFailsExactly | src/pgha/daemon.py:355-384 | for every interleaving of any number of threads: the guard is open during a switchover or within 30 seconds of a demotion if and only if a STANDBY's main loop is at it, the last stamp is 30 seconds old, the flag was last written to clear it, and more threads have set it than cleared it |
| Grace.StaleRequestOpensGuard | src/pgha/daemon.py:626-638 | a request handled by a node that is still demoting opens the guard |
| Grace.TwoRequestsOpenGuard | src/pgha/daemon.py:541-552 | so does the end of one of two promotions on a standby |
| Grace.TwoCommandsOpenGuard | src/pgha/daemon.py:791-804 | so do two commands accepted before the first thread has set the flag |
| Heartbeat.HeartbeatManager.Send | src/pgha/heartbeat.py:159-176 | the datagram carries the snapshot taken and the next sequence number |
| Heartbeat.HeartbeatManager.Receive | src/pgha/heartbeat.py:194-221 | a well-formed heartbeat of the other node replaces the peer's record as a whole |
| Heartbeat.HeartbeatManager.PeerSnapshot | src/pgha/heartbeat.py:121-125 | the peer's record as a whole, unaffected by later receipts |
| Heartbeat.HeartbeatManager.WatchdogTick | src/pgha/heartbeat.py:237-272 | DEAD only after a first heartbeat, past the interval, while alive, with the probe failing |
| Heartbeat.EventsAlternate | src/pgha/heartbeat.py:205-272 | events alternate from RECOVERED on, alive exactly after a RECOVERED, none before the first heartbeat |
| Heartbeat.ReportsExactly | src/pgha/heartbeat.py:205-272 | over every history: DEAD is reported exactly by a tick with the peer alive, its last heartbeat longer ago than the dead interval, and the tick's own probe failing; RECOVERED exactly by a heartbeat of a peer not alive; nothing else |
| Heartbeat.SilenceNoticed | src/pgha/heartbeat.py:227-272 | silence is reported exactly once, later than the dead interval and at most one check interval and one probe after it |
| Heartbeat.PeerViewIsHistory | src/pgha/heartbeat.py:121-213 | with datagrams lost, late, reordered or repeated, the peer view is always one single state the peer was in: the one in which the datagram to arrive last was sent |
| Heartbeat.ArrivalGoesBackExactly | src/pgha/heartbeat.py:206-213 | an arrival puts an older state back if and only if its sequence number is below the one stored and the sender wrote its record between the two sends |
| Heartbeat.ViewNeverGoesBackExactly | src/pgha/heartbeat.py:206-213 | over every run the view never goes back if and only if no datagram arrives that was sent in an older state than one that arrived before it |
| Heartbeat.ViewMayGoBack | src/pgha/heartbeat.py:206-213 | two datagrams in the wrong order turn a STANDBY back into a PRIMARY |
| Monitors.TrailingFailuresSpec | src/pgha/monitor/postgres.py:114-127 | the count specified is the longest failed suffix |
| Monitors.PgMonitorRefines | src/pgha/monitor/postgres.py:87-128 | for every history the counter is the trailing run of failed checks since the last reset or deactivation, and the snapshot the last check |
| Monitors.FailedEnoughExactly | src/pgha/daemon.py:317-321 | the threshold test holds exactly when that many last checks were made and all failed |
| Monitors.LastSwitchDecides | src/pgha/monitor/postgres.py:93-99 | the monitor is on exactly when it was last switched on, whatever was checked or reset since |
| Monitors.PostgresMonitor.Round | src/pgha/monitor/postgres.py:105-128 | one round of the loop extends the history by one check |
| Monitors.PostgresMonitor.ResetCounters | src/pgha/monitor/postgres.py:87-91 | extends the history by a reset |
| Monitors.PostgresMonitor.Activate | src/pgha/monitor/postgres.py:93-99 | extends the history by an activation or deactivation |
| Monitors.OsMonitor.Collect | src/pgha/monitor/os_monitor.py:103-116 | degraded exactly when the configured number of last samples all broke a limit |
| Limits.FenceOfLivePrimary | src/pgha/ha/failover.py:227-254 | fencing a primary that still has the disk mounted ends exclusivity |
| Limits.LateDetach | src/pgha/gcp/disk.py:287-315 | a detach that takes effect and then times out leaves a PRIMARY claiming a disk nobody holds |
| Limits.TwoRecords | src/pgha/daemon.py:511-526 | a request delivered between a self-demotion's detach and its disk-state step ends with both nodes PRIMARY and ATTACHED_RW, though every call does what it says |
| Limits.BothAdd | src/pgha/gcp/network.py:85-118 | from two idle standbys: a takeover from a promotion that has mounted ends with the VIP on both NICs, though every call does what it says |
| Limits.TwoPromotionsOnOneNode | src/pgha/daemon.py:626-638 | two requests handled at once on one node can leave it mounted without the disk |

## Left out

- VipExclusivity.VipExclusive: one direction, as a node whose disk was taken may still fail before it adds; `VipLostExactly` and `VipOnceExactly` give the exact conditions.
- Grace.GraceHolds: one direction; `GraceLostExactly` and `GuardFailsExactly` give the exact conditions, before the event and of a whole history.
- Exclusivity.SwitchoverExclusivity: leaves out the record of a self-demoting node between its detach and its disk-state step; `SwitchoverRecordsExactly` says exactly when the record holds to the letter.
- Daemon.PgHaDaemon.RunSwitchover: what the main loop writes into the record meanwhile is not part of it; `Protocol` has it as an action of its own.
- Recovery.Converges: the main loop's heartbeat fallback and the operating-system degradation are not part of the events there; `Daemon.PassMeans` shows that a pass that demotes does not fall back.
- Models.HeartbeatRoundTrip: numbers given as strings and a node name that is not a string are treated as malformed.
- Sockets, TCP connection handling, JSON bytes, HTTP, credentials, token authentication, subprocesses, EFM, configuration parsing, logging, packaging and the command line tool.
- Engine events in the queue other than PEER_DEAD, and events dropped because the queue is full: only PEER_DEAD is acted on.
- The removal of a stale postmaster.pid between start attempts.
- Sending PG_FAIL_HANDOFF: a failover without fencing may start on any idle standby at any time in `Protocol`.
- The failover lock: it covers only the check and the start of the thread.
- Threads that interleave within one handler, one engine step or one monitor check.
- The election's random jitter, waits and time-outs inside resource calls, and the vip_holder and i_have_vip queries.
