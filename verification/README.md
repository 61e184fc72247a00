# Dayfinch time tracking, modelled in Dafny

Dayfinch tracks working time. A desktop agent journals every timer transition and heartbeat on its own disk and
uploads the journal in order; a server replays each event into work sessions and time segments, from which time sheets
and exports are computed. This project models the parts whose correctness depends on more than one function and proves
what they promise: over every input, every run and every interleaving of the steps that the model has.

`dafny verify dfyconfig.toml` checks everything.

## How it is organised

Times are integers, in microseconds of UTC unless a comment says otherwise. Identifiers are numbers.

* `Records` holds the rows; `TimeLedger` says when the session and segment tables agree with each other and what
  starting and stopping work does to them.
* `WorkSync` is one call of `sync_work_session` as a function of the tables: admission, replay suppression, clamping of
  clocks that step back, device switching, the lease that caps lost time, idle deduction, pause, resume and stop.
  Where the query that picks the previous event has a tie, the model takes any of the tied receipts.
  `Admission` says when a request is admitted, and `RowRules` what a recorded event does to each row, both in terms of
  the tables alone. `WorkRepository` is the repository object itself, whose methods update the tables in place and are
  proved to do what the functions say. `Closers` has the ways in which work is closed from outside and the migration
  that introduced the single timer, and `ClosedWork` what each of these does to every row; `ServerRuns` interleaves all
  of these, and `UserTime` follows one user's segments through such runs.
* `OwnRows` picks out the rows of one device among those of all others. `TrackedTime` follows the calls of a device,
  between which others act, and computes the device's tracked total from its journal alone; `AttributedTime` does the
  same for the segments and the work they are booked on. `Compaction` is the purge of replay receipts, and `PurgedRuns`
  compares a server that purges with one that never does.
* `JournalProtocol` puts the agent's journal, a network that loses, duplicates and delays messages, restarts of the
  agent, clocks that step back, purges and the server into one state machine; `JournalTotal` ties it to the tracked
  total. Each server call is one atomic step.
* `DirtyDays` has the triggers that mark days for export, the connections of users to accounts, and the export that
  relies on both. Jira's are modelled; Asana's (`api/migrations.py:1876-1949`) work the same way.
* `Installer` is the self-update with every failure it distinguishes; a crash may leave any state the disk went through.
* `TrackingWindows` finds the window of an automatic policy or reminder; `AutomaticTracking` is the machine that starts
  and stops the timer for it. Its worker and the window's thread, which refreshes the policy once while it opens, take
  separate lock-protected actions, between which the employee may act.
* `CaptureQueue` is the agent's queue of screenshots, again with every state its disk goes through; `CaptureIngest` is
  what concurrent uploads of them do on the server.
* `BackupRestore`, `PayPeriods` (with `Intervals`), `RateLimit` and `Versions` are backup and restore of stored objects,
  pay periods and time sheets, the shared request limiter, and the ordering of releases.

## What turned out not to hold

The code is modelled as it is. In these places a natural expectation fails; a lemma gives an instance or the exact
condition.

* Archiving a task ends its segments at the server's clock without comparing it to their start, so a segment that an
  agent reported up to five minutes ahead can end before it starts (`Closers.TaskArchivalWellFormed`,
  `ServerRuns.ArchivalCanInvertASegment`).
* The lock of an approved period is checked on an event's own day, before a clock that stepped back is clamped to the
  previous event, so work can begin on a locked day (`WorkSync.LockedDaysGetNoNewWork`,
  `WorkSync.ALockedDayCanGetWork`).
* Changing a user's role can leave running work that its owner may no longer do (`Closers.SetUserRoleAuthorization`,
  `ServerRuns.ARoleChangeCanLeaveUnauthorizedWork`); over runs, `ServerRuns.EveryReachableStateIsSound` says exactly
  when. Adding an existing member again as a viewer would do the same (`Closers.AddMemberAuthorization`), but neither of
  the two callers does it: one refuses members, and the other adds to a project it has just created.
* A moment can be counted twice for a user who tracks on two devices: an event of one device is compared with the start
  of the work on the other, not with its end (`UserTime.TwoDevicesCanOverlap`). No moment is counted twice exactly if no
  recorded event begins a segment before an earlier one has ended (`UserTime.NoMomentIsCountedTwice`).
* A purge can take the receipt of an applied event that is still under way, or still queued after the agent's clock
  stepped back, and then the event is applied a second time. At-most-once holds exactly as long as no purge does this
  (`JournalProtocol.NextKeepsRecognised`, `JournalProtocol.CarelessPurgesDoHarm`,
  `JournalProtocol.SteppingBackMakesPurgesCareless`); if the clock never steps back, only requests still under way can
  come to harm (`JournalProtocol.OnlyDelayedRequestsMakePurgesCareless`).
* Connecting or disconnecting an account changes what is authorized for export without marking any day. Exports stay
  right exactly if no completed time of an unmarked day is shifted by this (`DirtyDays.ExportsNeverMissAChange`);
  changing the account and back loses a day (`DirtyDays.ReturningToAnAccountLosesADay`).
* A time sheet leaves out a segment of a session that starts after the period; it loses nothing exactly if there is none
  (`PayPeriods.TheJoinLosesNothing`). With heartbeats that carry identifiers there is none
  (`ServerRuns.SessionsStartFirst`); without them there can be (`ServerRuns.ASegmentCanPrecedeItsSession`,
  `PayPeriods.ATimesheetCanLoseTime`).
* An update's plan can say `installed` over the old executable, if the write of that record raises after its rename
  (`Installer.InstalledCanBeFalse`).
* The automatic policy can stop a timer that the employee started, exactly if the employee starts it while one of the
  two threads is about to stop a timer (`AutomaticTracking.PolicyStopsOnlyItsOwn`, `AutomaticTracking.HarmIsReal`). A
  timer that the policy started outlives its window once the employee answers the consent question again
  (`AutomaticTracking.ReansweringOutlivesTheWindow`). A stop is forgotten for its window by four kinds of step, and by
  each of them (`AutomaticTracking.StopHoldsForTheWindow`, `AutomaticTracking.ReleaseIsReal`); a restart without a
  connection is enough (`AutomaticTracking.OfflineRestartForgetsTheStop`).
* The counter of quarantined items can fall below the number of envelopes, exactly if more envelopes were placed by
  writes that then failed than were placed again (`CaptureQueue.OfflineQueue.WriteQuarantine`); one such write is
  enough (`CaptureQueue.ALateFailureIsNotCounted`).
* Of two captures of one device and instant the second is answered as a duplicate and is stored nowhere
  (`CaptureIngest.ADuplicateMayBeAnotherCapture`).
* Backup checks the recorded digest only for the first row that refers to an object (`BackupRestore.SnapshotObjects`,
  `BackupRestore.AWrongDigestIsBackedUp`). A restore into a store without versions mixes up objects that shared a key
  (`BackupRestore.RestoreResolvesEveryRow`, `BackupRestore.TwoVersionsAreMixedUp`).
* A statement that is applied out of the order of its time resets the request limiter
  (`RateLimit.OneLateStatementBreaksTheLimit`). The limit holds for a window exactly if nothing comes between its
  requests (`RateLimit.LimitHoldsExactly`).

## Model

| member | source | states |
|---|---|---|
| TimeLedger.StopsKeepsConsistent | api/repositories/work.py:522-541 | however a set of sessions is stopped, active sessions and open segments still correspond one to one and no device or user gets a second open session |
| TimeLedger.OpenSessionKeepsConsistent | api/repositories/work.py:340-361 | a session begun where its device and user have none open keeps the two tables and both unique indexes intact |
| TimeLedger.PauseKeepsConsistent | api/repositories/work.py:364-372 | pausing leaves the session without an open segment, and that segment does not end before it starts whatever the idle time |
| TimeLedger.ResumeKeepsConsistent | api/repositories/work.py:367-372 | resuming gives the session exactly one open segment again |
| WorkSync.AdmittedIsAuthorized | api/repositories/work.py:143-210 | an active request is admitted only for an enabled owner who is no viewer, an enabled project and, for a plain member, a worker or manager membership |
| WorkSync.AdvanceKeeps | api/repositories/work.py:297-386 | whichever branch an event takes, the tables stay consistent and every open segment afterwards was open before under the same work or is the event's own |
| WorkSync.SyncKeepsInv | api/repositories/work.py:127-390 | every call, accepted or not, keeps the tables consistent, and every open segment authorized if it was, so neither partial unique index can ever fire |
| WorkSync.RetryIsHarmless | api/repositories/work.py:248-259 | a retry of an accepted event at any later time changes nothing, and if accepted gets the same answer |
| WorkSync.AcceptedEventIsCurrent | api/repositories/work.py:273-390 | after an accepted event the device's only open session, which is also its owner's only one, has exactly the event's work and status; after a stop there is none |
| WorkSync.SwitchRule | api/repositories/work.py:279-296 | with the owner tracking on another device an event is accepted if and only if it is an explicit transition not older than that session, which it then ends at its own instant; a refusal changes nothing |
| WorkSync.OthersAreUntouched | api/repositories/work.py:273-390 | sessions and segments of other people's devices stay exactly as they were |
| WorkSync.LockedDaysGetNoNewWork | api/repositories/work.py:143-271 | a segment that a call adds starts on a locked day of the owner if and only if the agent's clock stepped back and the clamp moves the event into a locked day |
| WorkSync.ALockedDayCanGetWork | api/repositories/work.py:143-271 | there are sound tables and an accepted event that starts work on a locked day |
| Admission.LimitsAreChecked | api/repositories/work.py:180-199 | a limit is reached if and only if it is set and the user's segments that start on the day of the request, or on one of the seven days from its Monday, an open one up to now, last at least that long |
| Admission.AdmittedUnlessObjected | api/repositories/work.py:143-210 | a request is refused with the first of ten objections that applies, each stated on the tables (locked day, viewer, owner, project, membership, both limits, inactive and foreign task, desktop policy), and is otherwise admitted for its device's owner and its task's project |
| Admission.ObjectedIsRejected | api/repositories/work.py:143-210 | a call with an objection names the first one and changes nothing |
| RowRules.EveryRowFollowsItsRule | api/repositories/work.py:273-386 | what becomes of each session and segment row depends on that row, the event and the latest receipt alone: displaced, ended by the lease, by other work or by a stop, paused less the idle time, or going on; and the session and segment that the event begins are the only new rows |
| RowRules.RefusedForTheOtherDevice | api/repositories/work.py:279-296 | an event is refused if and only if its user has an open session on another device and it is no switch, or is one older than that session |
| RowRules.WhatACallRecords | api/repositories/work.py:248-390 | an admitted call changes nothing if its event is known or is refused, and otherwise applies the row rules at the later of its time and the latest receipt's, and remembers the event with its status, work, idle time, interval and session |
| WorkRepository.WorkStore.FindOpenOn | api/repositories/work.py:273-278 | the loop over the rows finds the device's open session |
| WorkRepository.WorkStore.FindOpenElsewhere | api/repositories/work.py:280-286 | the loop over the rows finds the owner's open session on another device |
| WorkRepository.WorkStore.FindPrevious | api/repositories/work.py:261-265 | whatever the order of the rows, the receipt found is one of the device's latest |
| WorkRepository.WorkStore.CloseSegmentsOf | api/repositories/work.py:521-529 | the session's open segments end at the instant, but not before they start, and no other segment changes |
| WorkRepository.WorkStore.StartSegment | api/repositories/work.py:511-519 | one open segment of the session is added at the end of the table |
| WorkRepository.WorkStore.Stop | api/repositories/work.py:531-541 | the two updates together stop the session as the ledger defines it |
| WorkRepository.WorkStore.InsertReceipt | api/repositories/work.py:401-432 | an event with an identifier leaves a receipt, one without leaves none |
| WorkRepository.WorkStore.DisplaceOther | api/repositories/work.py:279-296 | the other device's session is stopped, or the refusal is returned and nothing has changed |
| WorkRepository.WorkStore.RetireSession | api/repositories/work.py:300-321 | the device's session is retired exactly when its lease ran out or its work changed, at the instant the ledger rules prescribe |
| WorkRepository.WorkStore.ApplyStatus | api/repositories/work.py:322-372 | stop, begin, pause, resume and heartbeat change the tables as the ledger rules prescribe |
| WorkRepository.WorkStore.Transact | api/repositories/work.py:216-390 | the statements of the transaction, in their order, have the effect of the replay function, or none if it is refused |
| WorkRepository.WorkStore.SyncWorkSession | api/repositories/work.py:127-390 | one call in place equals the functional call for some latest receipt, and keeps the invariant |
| WorkRepository.WorkStore.GetWorkSessionForCapture | api/repositories/work.py:441-455 | a session is found if and only if some segment of the device starts by the instant and is open or ends at it or later, and then it has one of those that starts last |
| WorkRepository.WorkStore.DeleteStateEventsBefore | api/repositories/work.py:457-470 | a receipt goes if and only if it was received before the cutoff and its device has a later one, and the number that go is returned |
| WorkRepository.WorkStore.CloseScope | api/repositories/projects.py:13-44 | the closing statements stop every open session in scope, at the server's clock or at its own start if that is later |
| WorkRepository.WorkStore.SetProjectEnabled | api/repositories/projects.py:161-174 | archiving or restoring a project in place has the modelled effect and keeps the invariant |
| WorkRepository.WorkStore.RemoveProjectMember | api/repositories/projects.py:148-159 | removing a member in place has the modelled effect and keeps the invariant |
| WorkRepository.WorkStore.SetProjectMemberRole | api/repositories/projects.py:193-212 | changing a member's role in place has the modelled effect and keeps the invariant |
| WorkRepository.WorkStore.SetUserEnabled | api/repositories/accounts.py:345-377 | disabling or enabling a user in place has the modelled effect and keeps the invariant |
| WorkRepository.WorkStore.SetDeviceEnabled | api/repositories/devices.py:111-148 | revoking or enabling a device in place has the modelled effect and keeps the invariant |
| WorkRepository.WorkStore.SetTaskStatus | api/repositories/work.py:87-125 | archiving or restoring a task in place has the modelled effect, including its three refusals, and keeps the invariant |
| WorkRepository.PreviousIrrelevant | api/repositories/work.py:248-271 | for an event without an identifier the outcome does not depend on the receipts |
| Closers.StopAllKeeps | api/repositories/projects.py:13-44 | closing any set of sessions keeps the tables consistent and well formed, adds no row, reopens none and leaves no open segment of the set |
| Closers.SetProjectEnabledKeeps | api/repositories/projects.py:161-174 | archiving keeps every remaining open segment authorized; restoring a project reopens no work and enables or reassigns no device |
| Closers.RemoveMemberKeeps | api/repositories/projects.py:148-159 | the same for removing a member |
| Closers.SetMemberRoleKeeps | api/repositories/projects.py:193-212 | the same for a change of role, with a downgrade to viewer closing the member's work |
| Closers.SetUserEnabledKeeps | api/repositories/accounts.py:345-377 | the same for disabling a user; enabling the user again reopens neither work nor devices |
| Closers.SetDeviceEnabledKeeps | api/repositories/devices.py:111-148 | revoking a device closes its work and keeps the invariant |
| Closers.SetTaskActiveKeeps | api/repositories/work.py:87-125 | archiving a task keeps the tables consistent and authorized |
| Closers.CutTaskWorkKeeps | api/repositories/work.py:103-125 | cutting a task's work keeps sessions and segments in correspondence |
| Closers.TaskArchivalWellFormed | api/repositories/work.py:103-111 | archival leaves every segment ending after its start if and only if no open segment on that work starts after the server's clock |
| Closers.AddMemberAuthorization | api/repositories/projects.py:133-146 | adding a member keeps open work authorized if and only if it does not turn a plain member with running work into a viewer; it always does for someone who is not yet a member |
| Closers.SetUserRoleAuthorization | api/repositories/workforce.py:864-870 | changing a user's role keeps open work authorized if and only if a new plain member may track every project they have open work in |
| Closers.MigrationEstablishesSingleTimer | api/migrations.py:935-968 | from tables in which only devices were unique, the migration reaches tables in which users are too, and each user with open sessions keeps exactly one of them untouched |
| ClosedWork.ProjectIsChanged | api/repositories/projects.py:161-174 | the project has the requested state; archiving ends exactly its open sessions and segments, at the later of the clock and their start, unassigns exactly its devices and changes no other row |
| ClosedWork.MemberIsRemoved | api/repositories/projects.py:148-159 | the membership is gone and no other; exactly the member's open work in the project ends, and exactly the member's devices there are unassigned |
| ClosedWork.MemberRoleIsChanged | api/repositories/projects.py:193-212 | the member has the role; only a new viewer's work in the project ends and devices are unassigned, and nothing else changes |
| ClosedWork.UserIsChanged | api/repositories/accounts.py:345-377 | the user has the requested state; disabling ends exactly the user's open work and disables exactly the user's devices |
| ClosedWork.DeviceIsChanged | api/repositories/devices.py:111-148 | the device has the requested state; revoking ends exactly its open work, and an unknown device changes nothing |
| ClosedWork.TaskIsChanged | api/repositories/work.py:87-125 | the task has the requested state; archiving ends exactly its open work, at the clock whatever began later; missing and managed tasks are refused |
| ClosedWork.NothingElseIsChanged | api/repositories/workforce.py:864-870 | adding a member sets that membership and changing a user's role that role, and nothing else changes |
| ClosedWork.MigrationEndsTheSuperseded | api/migrations.py:935-968 | the migration ends exactly the open sessions of which the same user has one updated later, when they were last updated, and their open segments then or when they began |
| Compaction.CompactCovers | api/repositories/work.py:457-470 | after any purge every receipt that is gone is outdated by one that is kept |
| Compaction.CoveredSameLatest | api/repositories/work.py:261-265 | the receipts that the next call may pick as its predecessor are the same with and without purging |
| PurgedRuns.PurgingIsInvisible | api/repositories/work.py:457-470 | for every run of calls with fresh identifiers, administrative changes and purges at any moments, directory, sessions and segments are those of the run that never purges |
| ClosedWork.PurgedReceipts | api/repositories/work.py:457-470 | a receipt is purged if and only if it was received before the cutoff and a later one of its device is there; the others are unchanged |
| ServerRuns.ExecuteKeeps | api/repositories/workforce.py:864-870 | every command of the server keeps the tables consistent; open work stays authorized under every command but a change of role that leaves running work to a plain member without a tracking membership, and under that one never; only a heartbeat opens work |
| ClosedWork.CommandsTakeEffect | api/repositories/projects.py:133-212 | every command of a run brings about what it is for: states, roles and memberships are as requested and no work runs where it was closed |
| ServerRuns.EveryReachableStateIsSound | api/migrations.py:150-151 | in every state that any run reaches, sessions are active if and only if they have exactly one open segment and no device and no user has two open sessions; every open segment is authorized all along the run if and only if every change of role fits the running work |
| ServerRuns.SoundnessForAUser | api/migrations.py:965-967 | whatever happened since the tables were empty, a user has exactly one running segment while some session of theirs is active and none otherwise |
| ServerRuns.ARoleChangeCanLeaveUnauthorizedWork | api/repositories/workforce.py:864-870 | there is a run from empty tables, a manager who is no member starts the timer and is made a plain member, that leaves unauthorized running work |
| ServerRuns.ArchivalCanInvertASegment | api/repositories/work.py:103-111 | for every clock value there is a run from empty tables, an accepted event five minutes ahead and the archival of its task, that leaves a segment ending before its start |
| ServerRuns.SessionsStartFirst | api/repositories/work.py:261-271 | over every run whose heartbeats carry identifiers, with any clocks and purges, no session starts after one of its segments |
| ServerRuns.ASegmentCanPrecedeItsSession | api/repositories/work.py:364-372 | three heartbeats without identifiers, the last one observed before the first, leave a segment that starts before its session |
| UserTime.ExecuteKeepsApart | api/repositories/work.py:279-372 | a command keeps a user's segments, on whatever devices, pairwise disjoint if and only if it does not record an event that begins a segment of theirs at an instant after which another one has ended |
| UserTime.NoMomentIsCountedTwice | api/repositories/work.py:279-372 | over every run from empty tables no moment of a user is counted twice, at any time, if and only if no such event is recorded |
| UserTime.TwoDevicesCanOverlap | api/repositories/work.py:290-296 | there is a run of two devices of one user, a pause and a switch with an earlier instant, after which two segments overlap |
| OwnRows.SoloAdvance | api/repositories/work.py:297-386 | an event does to the device's own rows, among all others, what it would do if the device were the only one with work |
| OwnRows.OtherOwnersSpare | api/repositories/work.py:273-390 | a call of another owner's device leaves the rows of this one as they were |
| OwnRows.SparesUnlessItStops | api/repositories/projects.py:13-44 | an administrative command leaves the device's rows as they were if and only if it does not stop the device's open session |
| TrackedTime.SegmentsStayDisjoint | api/repositories/work.py:261-372 | for every run of a device's calls among those of others that spare its rows, with any clocks, purges and tie-breaking, its segments are well formed, pairwise disjoint and in order |
| TrackedTime.CaptureFindsTheLatestSegment | api/repositories/work.py:441-455 | the capture lookup succeeds if and only if the latest segment starting at or before the instant is open or ends at it or later, and then finds one with that start |
| TrackedTime.PicksLastEvent | api/repositories/work.py:261-271 | with increasing times the predecessor picked is the last applied event |
| TrackedTime.TrackedTotalIsEarned | api/repositories/work.py:297-372 | for every such run with increasing times the device's tracked total equals a function of its journal: gaps of at most ninety seconds or two heartbeats of either event in full, longer ones as one heartbeat interval, less idle time as far as the stretch reaches |
| TrackedTime.EarnedIsBounded | api/repositories/work.py:297-372 | a journal never earns more than the time it spans, nor less than its current stretch |
| AttributedTime.BookingsAreThePieces | api/repositories/work.py:297-386 | for every such run with increasing times the device's segments, each with the task and project of its session, are exactly the pieces that the journal alone describes |
| AttributedTime.PiecesLastWhatIsEarned | api/repositories/work.py:297-386 | the pieces of any journal whose times do not step back last exactly as long as it has earned |
| AttributedTime.PiecesLastTheTrackedTotal | api/repositories/work.py:297-386 | measured at any instant after such a run, the pieces that the journal alone describes last exactly the device's tracked total |
| AttributedTime.CapturesGoToTheirPiece | api/repositories/work.py:441-455 | after such a run the capture lookup finds a session for exactly the instants that some piece of the journal meets, both ends included, with that piece's task and project; where one piece ends and another begins it is one that begins there |
| JournalProtocol.HeadIsFirst | agent/queue.py:362-382 | with a clock that does not step back the row that is uploaded next is the oldest one in the journal |
| JournalProtocol.TheHeadIsEarliest | agent/queue.py:362-382 | the row to be uploaded is one of those still there with the earliest observation, and the first created among those of one instant |
| JournalProtocol.JournalChanges | agent/queue.py:338-389 | rows are only ever added, and leave exactly when they are acknowledged or quarantined |
| JournalProtocol.NetworkChanges | agent/main.py:941-979 | a request is under way from its sending, and a reply from the server's answer, until it is lost or, for a reply, the agent restarts |
| JournalProtocol.ServerChanges | agent/main.py:941-979 | calls and other commands have their effect on the tables, and an event is listed as applied exactly when its call is accepted without a receipt |
| JournalProtocol.TheHeadGetsThrough | agent/main.py:941-979 | the head leaves the queue applied when it is sent, the server accepts it and the reply arrives |
| JournalProtocol.NextKeepsSane | agent/main.py:941-979 | every step of agent, network, server and others, with any clocks and purges, keeps the protocol's invariant |
| JournalProtocol.AcceptedIsApplied | api/repositories/work.py:248-259 | a request that is accepted without being applied is a retry of an event that was applied |
| JournalProtocol.HeadReceiptSurvives | api/repositories/work.py:457-470 | if the agent's clock never stepped back, no purge takes the receipt of an event that is still queued |
| JournalProtocol.EveryEventIsAccountedFor | agent/queue.py:314-389 | for every interleaving, with any clocks and purges, every journalled event is queued, applied or quarantined, and only journalled events are applied |
| JournalProtocol.NextKeepsRecognised | api/repositories/work.py:248-259 | while the server has the receipt of every applied event that may come again, no step applies an event twice, and it goes on to have them if and only if the step is no careless purge |
| JournalProtocol.EveryEventIsAppliedOnce | api/repositories/work.py:248-259 | for every interleaving without a careless purge, and with any clocks, no event is applied twice |
| JournalProtocol.UnrecognisedIsAppliedAgain | api/repositories/work.py:248-259 | an applied event without a receipt is applied again by the first call that the server accepts, and becomes the device's present event |
| JournalProtocol.CarelessPurgesDoHarm | api/repositories/work.py:457-470 | after every careless purge the agent can come to send an applied event so that every accepted call applies it a second time |
| JournalProtocol.SteppingBackMakesPurgesCareless | api/repositories/work.py:457-470 | with a clock that steps back a purge can be careless although no request is under way |
| JournalProtocol.EverythingIsAppliedInOrder | agent/queue.py:362-382 | from the start, for every interleaving without a careless purge and with a clock that never steps back, what was applied out of turn had been quarantined |
| JournalProtocol.OnlyDelayedRequestsMakePurgesCareless | api/repositories/work.py:457-470 | if the clock never stepped back, a careless purge takes the receipt of an event that has left the journal and of which a request is still under way |
| JournalProtocol.WithoutQuarantineInOrder | agent/main.py:941-979 | as long as nothing is quarantined the applied events are the journal in order, up to the event whose acknowledgement is outstanding |
| JournalTotal.DrainedJournalIsTheTotal | agent/main.py:785-806 | however often messages were lost or repeated and the agent restarted, and whatever others and purges did that spares the device: a drained journal has been applied in order, all but the events given up, the server's total for the device is what it earned, and its segments are booked on the work that it names |
| DirtyDays.SeriesIsDaysTouched | api/migrations.py:1550-1561 | the enumerated days are exactly those that the interval overlaps |
| DirtyDays.DaysAddUp | api/migrations.py:1550-1561 | the overlaps with the enumerated days sum to the length of the interval |
| DirtyDays.MarksWhatItWorks | api/migrations.py:1531-1562 | an entry marks a linked day if and only if it contributes time to it |
| DirtyDays.UnmarkedIsUnchanged | api/migrations.py:1564-1617 | whatever is inserted, updated or deleted, a linked user, task and day that is not marked has an unchanged total, all of it and what is authorized of it |
| DirtyDays.SegmentCounts | api/repositories/integrations.py:893-931 | a segment contributes, once it has ended, the number of its instants on the day and in each period of the account, for its session's user and task alone |
| DirtyDays.ManualCounts | api/repositories/integrations.py:932-955 | a manual entry contributes in the same way, once it is approved |
| DirtyDays.DirtyChanges | api/migrations.py:1531-1617 | a day becomes dirty exactly with a statement whose row before or after shares an instant with it on a linked task, and is so until it is staged |
| DirtyDays.ExportsChange | api/repositories/integrations.py:957-1001 | staging writes the authorized total for the connected account unless it is zero and nothing was staged, and leaves other exports and those of another account alone |
| DirtyDays.ConnectionsChange | api/repositories/integrations.py:713-750 | a connection comes with connecting and goes with disconnecting; taking over the site's grant switches off exactly the others who used it |
| DirtyDays.PeriodsChange | api/repositories/integrations.py:751-779 | an open period ends exactly with its connection or when another account is connected, and connecting opens one exactly if none of the account is open |
| DirtyDays.RefusedForAConstraint | api/repositories/integrations.py:692-783 | a connection or disconnection that is asked for is refused exactly if two users of an integration would be connected to one account or a period would end before it starts |
| DirtyDays.TheConstraintsHold | api/migrations.py:1659-1678 | after every run from empty tables neither is so |
| DirtyDays.ExportsNeverMissAChange | api/repositories/integrations.py:844-1001 | over every run from empty tables of changes, stagings, connections and disconnections, a day that is not marked is exported at every moment with exactly the time that is authorized of it, if and only if no connection or disconnection shifts the authorization of completed time on an unmarked day |
| DirtyDays.NextKeepsSound | api/repositories/integrations.py:692-779 | in every state only the last authorization period is open, and connections and exports are for the account of the last one, so staging never meets an export of another account |
| DirtyDays.StaysUpToDate | api/repositories/integrations.py:751-779 | the same equivalence for each single step |
| DirtyDays.OnlyAReturnDisturbs | api/repositories/integrations.py:751-779 | while no entry is completed ahead of the clock, only connecting an account again after another one can shift the authorization of an unmarked day |
| DirtyDays.WorkBeforeTheConnectionIsNotExported | api/repositories/integrations.py:884-1001 | there is a run in which an hour worked before the account was connected is unmarked and not exported |
| DirtyDays.ReturningToAnAccountLosesADay | api/repositories/integrations.py:751-779 | there is a run in which changing the account and back leaves an authorized hour unmarked and not exported |
| DirtyDays.WorklogStore.Enqueue | api/migrations.py:1531-1562 | the loop adds exactly the days of a complete, non-empty, linked entry to the dirty set |
| DirtyDays.WorklogStore.WriteSegment | api/migrations.py:1564-1592 | inserting or updating a segment marks the days of the row before and of the row after, and no others |
| DirtyDays.WorklogStore.DeleteSegment | api/migrations.py:1564-1592 | deleting a segment marks its days |
| DirtyDays.WorklogStore.WriteManual | api/migrations.py:1594-1617 | writing a manual entry marks the days that it had, or has, as an approved entry |
| DirtyDays.WorklogStore.DeleteManual | api/migrations.py:1594-1617 | deleting a manual entry marks its days |
| Installer.Update.KeepBackup | agent/installer.py:298-309 | the update goes on only with a verified copy of the old executable, which is itself untouched until then |
| Installer.Update.Replace | agent/installer.py:310-331 | the replacement succeeds exactly when the new content arrives intact, passes its diagnostics and the record is written |
| Installer.Update.RollBack | agent/installer.py:331-353 | a rollback is recorded as such only over the old executable |
| Installer.Update.Apply | agent/installer.py:281-359 | under any failures: success if and only if all checks pass; the old executable or a verified backup at every instant; old or new content only, with faithful copies; recorded rollbacks are true, and recorded successes are exactly under the stated condition |
| Installer.InstalledCanBeFalse | agent/installer.py:328-353 | there is a failure under which the plan says installed over the old executable |
| Installer.SettlingIsTruthfulAndFinal | agent/installer.py:374-390 | a settled plan tells which executable is in place and settling it again changes nothing |
| Installer.Reconcile | agent/installer.py:362-391 | the loop settles the first hundred plans in place, counts those it settled, and stops at the first that fits neither executable, leaving the rest as they are |
| Installer.ReconcileTwice | agent/installer.py:362-391 | a second reconciliation resolves nothing |
| Installer.CrashedUpdateCanBeSettled | agent/installer.py:374-390 | every state that an update with faithful copies goes through, hence every crash, is unambiguous and settles to the truth, except after a record of success whose write raised after its rename |
| TrackingWindows.CoversSinceYesterday | agent/automatic.py:34-36 | an occurrence that covers a moment began on that day or the day before, so searching two days is exhaustive |
| TrackingWindows.Candidates | agent/automatic.py:33-54 | the loops collect exactly the occurrences, of whatever date, that cover the moment |
| TrackingWindows.FixedWindow | agent/automatic.py:26-61 | there is a window if and only if, in some week counted from Monday 5 January 1970, one of the first eight intervals listed under a weekday covers the moment when it begins on that weekday's date, and it is the one that begins first |
| TrackingWindows.ShiftWindow | agent/automatic.py:64-96 | there is a window if and only if one of the first hundred readable shifts covers the moment, and it is the one that started first, with the shift's own project if it has one |
| TrackingWindows.ActiveWindow | agent/automatic.py:99-108 | without an accepted policy there is no window, and otherwise that of its schedule or its shifts as the calendar has it |
| TrackingWindows.ChoiceIsSticky | agent/automatic.py:51-61 | the occurrence chosen at a moment is chosen at every later moment before it ends, whatever else begins |
| TrackingWindows.WindowIsSticky | agent/automatic.py:99-108 | under one policy, fixed or by shifts, a window found once is found with the same key until it ends |
| TrackingWindows.KeyFixesTheEnd | agent/automatic.py:47-49 | two windows of one policy with the same key end at the same instant |
| TrackingWindows.ActiveReminderWindow | agent/reminders.py:85-111 | a reminder window is found if and only if it is enabled and, in some week counted from Monday 5 January 1970, its stretch on one of its weekdays covers the moment, and its date is the earliest such |
| AutomaticTracking.PolicyStopsOnlyItsOwn | agent/main.py:600-649 | for every interleaving of the worker, the opening window and the employee in which the employee starts no timer while a thread is about to stop one, the policy never stops a timer that the employee started |
| AutomaticTracking.TimerChanges | agent/main.py:277-334 | exactly which steps start, stop, pause and resume the timer, and select its project |
| AutomaticTracking.PolicyChanges | agent/main.py:385-407 | the policy is replaced by what is fetched, its consent by an answer about it, and not otherwise |
| AutomaticTracking.MarkChanges | agent/main.py:600-649 | exactly which steps set and clear the mark of an automatic timer and the window dealt with |
| AutomaticTracking.NoteChanges | agent/main.py:311-334 | the suppression and its saved copy are set by an employee's stop in a window dealt with, and cleared by another policy or a windowless tick |
| AutomaticTracking.ThreadsMove | agent/main.py:600-649 | where the worker and the opening window go from each of their actions |
| AutomaticTracking.HarmIsReal | agent/main.py:600-649 | after every start at such a moment there is a continuation by the two threads alone in which the policy does stop the employee's timer |
| AutomaticTracking.DoomIsReal | agent/main.py:385-407 | whenever a running timer bears the policy's mark or a thread is about to stop it, the two threads alone can go on to stop it |
| AutomaticTracking.UnmarkedTimerRunsOn | agent/main.py:630-635 | otherwise no tick, refresh or answer stops it, in any interleaving |
| AutomaticTracking.ReansweringOutlivesTheWindow | agent/main.py:582-590 | once the employee answers again, a timer that the policy started is never stopped by the policy |
| AutomaticTracking.StopHoldsForTheWindow | agent/main.py:311-334 | after an employee's stop in a window dealt with, the policy does not start it for that window until a windowless tick, another policy, a stop in another window or a restart that lost the note |
| AutomaticTracking.ReleaseIsReal | agent/main.py:311-334 | each of these does release it: after any of them plain steps (no restart, no look at another window or none, no other policy) can lead to an automatic start for that window |
| AutomaticTracking.PlainStepsRespectTheStop | agent/main.py:600-649 | while the suppression stands, plain steps do not start the timer for that window, so it is the release that makes the difference |
| AutomaticTracking.ProcessStatesAreSound | agent/main.py:600-649 | every state that a process reaches from its start satisfies what these results ask of a state, and unless the employee starts a timer at a harmful moment the policy has stopped none of theirs |
| AutomaticTracking.StopIsFinal | agent/main.py:600-649 | under one policy and a clock that does not step back, no automatic start for that window ever follows, over any ticks, stops, answers, refreshes and restarts |
| AutomaticTracking.EveryProcessRespectsTheStop | agent/main.py:600-649 | whatever a process has done since its start, an employee's stop in a window dealt with holds until a release, and for good under one policy and a clock that does not step back |
| AutomaticTracking.OfflineRestartForgetsTheStop | agent/main.py:610-622 | from whatever state the employee stops in, a restart without a connection can lead to an automatic start in that window |
| AutomaticTracking.WholeRefresh | agent/desktop.py:84-88 | without interruption the window's refresh while it opens does what the worker's does |
| AutomaticTracking.WindowlessTick | agent/main.py:607-622 | an uninterrupted tick without a window stops the timer exactly when it bears the policy's mark, and clears the notes |
| AutomaticTracking.WindowTick | agent/main.py:623-649 | an uninterrupted tick with a window acts at most once for it, never on a running timer, and ends the worker if the policy names no project |
| AutomaticTracking.Agent.constructor | agent/main.py:85-112 | a process starts stopped, with the saved suppression |
| AutomaticTracking.Agent.StartTracking | agent/main.py:277-288 | starting needs a project and does nothing to a running timer |
| AutomaticTracking.Agent.PauseTracking | agent/main.py:290-298 | only an active timer can be paused |
| AutomaticTracking.Agent.ResumeTracking | agent/main.py:300-309 | only a paused timer can be resumed |
| AutomaticTracking.Agent.StopTracking | agent/main.py:311-334 | an employee's stop takes the mark off and suppresses the window dealt with; the policy's stop does neither |
| AutomaticTracking.Agent.SelectWork | agent/main.py:346-355 | the selected project is replaced and nothing else |
| AutomaticTracking.Agent.RespondAutomaticPolicy | agent/main.py:582-590 | an answer about the present policy changes its consent and clears mark and window; about another it changes nothing |
| AutomaticTracking.Agent.RefreshPolicy | agent/main.py:385-407 | a refresh equals the sequence of its lock-protected actions without interruption |
| AutomaticTracking.Agent.OpenWindow | agent/desktop.py:84-88 | opening the window without interruption has the effect of one refresh |
| AutomaticTracking.Agent.Tick | agent/main.py:600-649 | a tick equals the sequence of its lock-protected actions without interruption, on the window that its policy has at the moment |
| CaptureQueue.KeepNewest | agent/queue.py:676-685 | what is kept is at most the limit, and no kept capture is older than one that goes |
| CaptureQueue.RecoveryIsComplete | agent/queue.py:242-312 | after opening, every record has its own picture, sealed, in the image directory or is in quarantine, no other picture or partial file is left, and rows, quarantine and events are those before |
| CaptureQueue.OfflineQueue.WriteImage | agent/queue.py:660-674 | an image write has no effect, leaves a partial file or puts the sealed image in place, according to which of its actions fails, and every state in between is safe |
| CaptureQueue.OfflineQueue.Trim | agent/queue.py:676-688 | trimming keeps the newest captures and removes the images of the others |
| CaptureQueue.OfflineQueue.PlaceEnvelope | agent/queue.py:660-674 | an envelope is placed or not; a failure leaves it unplaced or comes after its rename |
| CaptureQueue.OfflineQueue.Add | agent/queue.py:532-588 | a completed add leaves at most the limit of the newest captures and no stray image; a failed one loses no record, and the count stays exact |
| CaptureQueue.OfflineQueue.Acknowledge | agent/queue.py:614-620 | row and image of an acknowledged capture go, in that order |
| CaptureQueue.OfflineQueue.WriteQuarantine | agent/queue.py:511-530 | the counter counts completed writes; it falls below the number of envelopes if and only if more of them were placed by writes that then failed than were placed again |
| CaptureQueue.ALateFailureIsNotCounted | agent/queue.py:511-530 | a newly opened queue whose next envelope write fails after its rename has a counter that is one short |
| CaptureQueue.OfflineQueue.QuarantineRecord | agent/queue.py:479-490 | the row goes only once its picture and envelope are in quarantine |
| CaptureQueue.OfflineQueue.ReadScreenshot | agent/queue.py:626-631 | a sealed record whose image is there opens to exactly the picture that was captured |
| CaptureQueue.OfflineQueue.AddState | agent/queue.py:338-360 | the cached count of state events follows the rows |
| CaptureQueue.OfflineQueue.AcknowledgeState | agent/queue.py:384-389 | the count goes down exactly if a row went |
| CaptureQueue.OfflineQueue.SealAll | agent/queue.py:242-264 | the loop seals every plain image and prepares rows that refer to the sealed ones, while the committed rows still find the plain ones |
| CaptureQueue.OfflineQueue.Sweep | agent/queue.py:304-312 | exactly the images that no row refers to, and all partial files, are removed |
| CaptureQueue.OfflineQueue.Initialize | agent/queue.py:142-312 | opening the queue on any safe disk recovers it completely, with exact counts, and succeeds if no disk action fails |
| CaptureQueue.CrashAndReopen | agent/queue.py:287-312 | from whatever state a crash left, a new process reaches a complete recovery |
| BackupRestore.SnapshotObjects | scripts/backup_restore.py:236-273 | the backup succeeds if and only if every object is readable and matches the digest of the first row that refers to it; it then holds each object once, with every reference to it |
| BackupRestore.AWrongDigestIsBackedUp | scripts/backup_restore.py:236-273 | two rows of one object, of which the second records another digest, are backed up without complaint |
| BackupRestore.VerifyPayloads | scripts/backup_restore.py:376-389 | verification passes if and only if every payload is there with the content of its digest |
| BackupRestore.RestoreObjects | scripts/backup_restore.py:393-443 | objects are written in order up to the first save that fails; if none fails and no row is missing, every reference gets the version that its object was stored under, and otherwise no row changes |
| BackupRestore.VersionsStay | api/storage.py:207-230 | a versioned store still holds each restored object under the version it reported |
| BackupRestore.LastSaveCounts | api/storage.py:123-140 | another store holds, under each key, the last object restored to it |
| BackupRestore.NothingIsOverwritten | api/storage.py:207-230 | wherever a restore fails, a versioned store still holds everything that could be read under a version before |
| BackupRestore.RestoreResolvesEveryRow | scripts/backup_restore.py:393-443 | every row reads the bytes it referred to if and only if the target keeps versions or no key stands for two contents |
| BackupRestore.BackUpAndRestore | scripts/backup_restore.py:236-443 | with saves that may fail before or after placing the object, backup and restore together change no row, or succeed, and then every row reads its bytes if and only if the target keeps versions or no key stands for two contents; a backup that cannot be taken touches nothing |
| BackupRestore.TwoVersionsAreMixedUp | scripts/backup_restore.py:393-443 | two versions of one object restored into a store without versions: everything succeeds and a row reads what it does not refer to |
| CaptureIngest.StepKeepsInv | api/routers/agent_api.py:271-346 | every step of any number of uploads and deletions keeps rows unique, their objects in place and every other object in one request's hands |
| CaptureIngest.RowsChange | api/repositories/activity.py:44-83 | a row comes exactly with the insertion of a capture whose id, and whose device and instant, are new, and goes with the end of its deletion |
| CaptureIngest.ObjectsChange | api/routers/agent_api.py:271-346 | an object comes with a save and goes exactly when it is taken back or its record is being deleted |
| CaptureIngest.RequestsChange | api/routers/agent_api.py:271-346 | how far each step takes its own request, and no other |
| CaptureIngest.RecordsCanBeDeleted | api/repositories/activity.py:44-83 | a record can always be deleted, and its object goes with it |
| CaptureIngest.EveryReachableStateIsSound | api/routers/agent_api.py:271-346 | the same over every run from empty tables |
| CaptureIngest.NothingIsLeftBehind | api/routers/agent_api.py:342-346 | no object is without a row if and only if no request is under way, or has failed, with an object in hand |
| CaptureIngest.AnswersHoldWithoutDeletion | api/routers/agent_api.py:271-346 | unless records are deleted, every answered capture, or another one of its device and instant, stays in the table |
| CaptureIngest.AnsweredMeansRecorded | api/migrations.py:96-115 | every answered capture itself is in the table if and only if no other capture there shares its device and instant |
| CaptureIngest.AnsweredInEveryRun | api/routers/agent_api.py:271-346 | the same equivalence after every run from empty tables without deletions whose uploads agree on what they retry |
| CaptureIngest.ADuplicateMayBeAnotherCapture | api/repositories/activity.py:44-83 | there is a run in which a capture is answered as a duplicate and is not in the table |
| CaptureIngest.Server.SaveObject | api/storage.py:78-92 | an object is saved under a fresh name |
| CaptureIngest.Server.AddRecord | api/repositories/activity.py:44-83 | the row is inserted if and only if it violates neither uniqueness constraint |
| CaptureIngest.Server.IngestActivity | api/routers/agent_api.py:271-346 | a single request has the effect of its steps in sequence, answers created if and only if the row was new, and a duplicate leaves rows and objects as they were |
| PayPeriods.OrdinalCountsDays | api/repositories/timesheets.py:16-31 | the numbers of dates go up by one from each calendar date to the next, across months, leap years and centuries |
| PayPeriods.OrdinalGrows | api/repositories/timesheets.py:16-31 | the order of dates is the order of their numbers |
| PayPeriods.DatesAreNumbers | api/repositories/timesheets.py:16-31 | dates and numbers correspond one to one |
| PayPeriods.WeekdaysFollowTheCalendar | api/repositories/timesheets.py:24-31 | dates and weekdays go on together, day by day, and schedules are placed on the same weeks |
| PayPeriods.FifthOfJanuary | api/repositories/timesheets.py:21-22 | 5 January 1970 is day four and a Monday |
| PayPeriods.PeriodsAreThePayPeriods | api/repositories/timesheets.py:11-31 | the period of a day is the one that the day lies in of the weeks from the configured weekday, of the fortnights counted from 5 January 1970, or of the calendar months |
| PayPeriods.MonthlyIsTheMonth | api/repositories/timesheets.py:15-20 | the 28-plus-four-days construction gives exactly the calendar month |
| PayPeriods.PeriodContainsToday | api/repositories/timesheets.py:11-31 | for every frequency the period contains its day |
| PayPeriods.OnePeriodPerDay | api/repositories/timesheets.py:11-31 | every day of a period has that same period |
| PayPeriods.EqualOrDisjoint | api/repositories/timesheets.py:11-31 | two periods are equal or have no day in common |
| PayPeriods.PeriodsTile | api/repositories/timesheets.py:11-31 | the next period starts on the day after |
| PayPeriods.ShareCountsInstants | api/repositories/timesheets.py:173-200 | a segment counts with the number of instants it shares with the days of the period, an open one up to now, and the joins select exactly by the stated comparisons |
| PayPeriods.TrackedSegmentBySegment | api/repositories/timesheets.py:173-200 | a time sheet adds up the shares of the segments that are joined |
| PayPeriods.TheJoinLosesNothing | api/repositories/timesheets.py:173-200 | the conditions of the query's joins leave out no time of the period if and only if no segment with time in it belongs to a session that starts after it |
| PayPeriods.ATimesheetCanLoseTime | api/repositories/timesheets.py:173-200 | for every period there is a run of heartbeats without identifiers after which the time sheet leaves out a minute of it |
| PayPeriods.TimesheetsAddUp | api/repositories/timesheets.py:173-200 | over consecutive periods the clipped times add up to all the time tracked from the first to the last |
| PayPeriods.EveryMomentIsCountedOnce | api/repositories/timesheets.py:11-31 | however many periods follow a day, their time sheets together count every tracked moment once |
| PayPeriods.TimesheetStore.GenerateOpen | api/repositories/timesheets.py:32-53 | exactly the missing time sheets of enabled employees who need approval are added, and their number is returned |
| PayPeriods.TimesheetsAreDisjoint | api/repositories/timesheets.py:41-43 | under one frequency two time sheets of an employee that share a day are the same |
| RateLimit.RateLimiter.ConsumeRequestLimit | api/repositories/rate_limits.py:7-40 | the caller's bucket counts on in the window that holds the instant or starts afresh, other buckets are untouched, the answer compares the count with the limit, and the wait told is the least number of whole seconds, at least one, that reaches the next window |
| RateLimit.RateLimiter.PurgeBefore | api/repositories/rate_limits.py:42-47 | exactly the buckets not used since the cutoff go |
| RateLimit.WindowsAreAligned | api/repositories/rate_limits.py:12-15 | a request is in the window whose bounds are the multiples of its length around it |
| RateLimit.UnusedForAWeek | api/repositories/rate_limits.py:42-47 | a purge forgets a bucket exactly if it has not been used for a week |
| RateLimit.RetryReachesTheNextWindow | api/repositories/rate_limits.py:31-34 | waiting as long as told reaches a later window, and one second less, if more than one was told, does not |
| RateLimit.FirstOnesPass | api/repositories/rate_limits.py:16-29 | with statements in order of time, and purges, exactly the first requests up to the limit pass in each window |
| RateLimit.EachStreakHasItsLimit | api/repositories/rate_limits.py:16-29 | in any order, and with any purges, a window lets through the first requests up to the limit of each uninterrupted streak of its requests |
| RateLimit.LimitHoldsExactly | api/repositories/rate_limits.py:16-29 | no limit is ever exceeded in a window if and only if no request of another window and no purge that takes the bucket stands between two of its requests |
| RateLimit.InOrderIsUninterrupted | api/repositories/rate_limits.py:16-29 | statements in order of time satisfy this condition |
| RateLimit.AtMostTwiceTheLimit | api/repositories/rate_limits.py:16-40 | in any stretch as long as a window at most twice the limit pass |
| RateLimit.OneLateStatementBreaksTheLimit | api/repositories/rate_limits.py:20-28 | for every limit one statement out of order lets one request more than the limit pass in a window |
| Versions.ParsingIsExact | agent/update.py:24-28 | the accepted texts are exactly the well-formed versions with or without build metadata, and each is read as the parts it is written from |
| Versions.CharactersAreListed | agent/update.py:24-28 | digits and the characters of identifiers are the listed ones |
| Versions.PartsAreListed | agent/update.py:24-28 | a number is a zero or digits that do not begin with one, and an identifier is not empty |
| Versions.VersionsAreListed | agent/update.py:24-28 | a version has three numbers, and a prerelease at least one identifier |
| Versions.NewerIsAStrictOrder | agent/update.py:117-130 | newer is irreflexive, asymmetric and transitive, and two versions of which neither is newer are the same |
| Versions.UpdatesNeverReturn | agent/update.py:266-267 | along any chain of accepted updates no precedence comes back |
| Versions.NumbersByDigits | agent/update.py:96-114 | numbers without leading zeros are ordered by length and then by digits |
| Versions.NewerIsHigherPrecedence | agent/update.py:117-130 | on valid versions newer is exactly the higher precedence of section 11 of Semantic Versioning 2.0.0 |
| Versions.EveryComparisonIsSectionEleven | agent/update.py:96-130 | on all texts: an error if and only if one is not accepted, and otherwise section 11 on the versions without leading zeros |
| Versions.BuildMetadataIsIgnored | agent/update.py:24-28 | build metadata on either side changes no answer |

## Left out

* Server calls are atomic steps. The checks at `api/repositories/work.py:143-210` use other connections than the
  transaction that follows, so a change of membership or project between the two is not modelled.
* HTTP, authentication, routing, configuration, user interfaces, screen capture and idle detection.
* Session notes and breaks; they follow the sessions and decide nothing.
* Authorization is of open segments. A paused event is not checked, so open sessions without an open segment may be
  unauthorized, as in the code.
* Integrations that archive imported tasks, and the stopping of web timers, which repeat the statements of task archival.
* The SCIM update of a user, which has the same cascade as disabling.
* Deleting users, devices or projects, and the cascades in the database; sessions are never deleted here.
* Rounding of exported and displayed seconds to whole numbers, and the cap of an export at 2^31 - 1 seconds; times are
  exact.
* Delivery of staged exports to Jira. Tasks keep their integration, and which dirty days a staging selects (by mode, age
  and number) is left open.
* Partial files that a failed write leaves in the quarantine directory; nothing removes or counts them.
* Submitting, reviewing and locking time sheets; a locked day is an input of admission.
* Daylight saving time; local times have a fixed offset, as the agent computes them for each call.
* Parsing of clock texts, dates and policies; what does not parse is absent.
* When a reminder was last sent (`reminder_is_due`).
* Writes of plan files during reconciliation that fail; the loop itself is modelled.
* Encryption. Sealing an image binds it to its record and opening inverts it; backups are assumed to decrypt to what was
  encrypted, so the chunk loops of the archive are not modelled. Digests are assumed free of collisions.
* Images of an older version are assumed to lie in the image directory.
* Usage events of the agent's queue, whose code repeats that of state events.
* The saved suppression of an automatic window is written in one step with the field, or not at all.
* Two deletions of one capture at the same time.
* Integer overflow of counters in the database.
* Digits other than ASCII in the three core numbers of a version.
* `apply_migrations`, apart from the migration of the single timer and the triggers.
