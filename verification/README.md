# Push notifications: a Dafny model

The backend stores notifications, sends them to devices through a push provider, retries,
postpones them during quiet periods, and lets several actors work on the same rows at once.
This project models that core and proves what it keeps. Modules follow the program:

- `QuietPeriods`, `EffectiveDate`: one-time and weekly (possibly overnight) windows, and the
  capped iteration that computes the date shown to users (`notifications/scheduling.py`).
  A window-based meaning of a period is defined independently of the code's arithmetic.
- `QuietPeriodForms`: validation, normalisation and partial update of a quiet period, and
  the table that results (`applications/serializers.py`).
- `Deliveries`, `Notifications`, `SendPass`: the row functions, and `send_notification` as an
  imperative pass of a class `Notification` with its loop and five counters
  (`notifications/services.py`).
- `PassMeaning`, `QueueMeaning`, `SenderPolicyMeaning`: what a pass, an attempt to queue and
  the sender policy mean, in terms of what they find, without naming the functions that
  compute it; `QueueMeaning` also ties an attempt to the protocol.
- `Protocol`: one notification as a state machine whose steps are single database, broker or
  provider accesses of API callers, the dispatcher, the retry sweep, the watchdog and any
  number of workers that may crash anywhere. `ProtocolSafety`, `ProtocolDeliveries`,
  `ProtocolRetries` and `ProtocolTiming` prove what every interleaving keeps;
  `ProtocolWitnesses` shows what goes wrong when the watchdog fires on a live run.
  `PassRefinement` proves that the imperative pass is one schedule of the protocol,
  `RunsArePasses` that every run the watchdog spares does what some pass does;
  `RetryWitnesses` reaches unexpected states.
- `QueueRequests`, `BeatTasks`, `Creation`: the conditional update with rollback and the bulk
  request, the loops of the periodic jobs, idempotent creation.
- `Devices`, `DeviceStore`, `DeviceHistory`: device identity (upsert, takeover, token
  rotation, merge, link, unlink) and every history of such requests.
- `SenderPolicy`: the lists that decide who may create notifications by e-mail.

A method that changes state in place is tied to a function of the old state; what the program
promises is then proved about that function, or about every run of the state machine.

## Hypotheses that the properties need

- *Sparing live runs* (`Protocol.SparedBehaviour`): the watchdog never fires while a run is
  live. In any interleaving this holds if and only if at every moment at most one run is live
  and the row is PROCESSING since that run's start (`ProtocolSafety.ExclusiveIffSpared`); it
  follows when no run outlives the watchdog's threshold (`LeaseImpliesExclusivity`). The bound on provider
  calls, the backoff, the finality of sent rows, the dating of pending rows and the property
  about the stored date need it. The accounting of runs, the coupling of the columns and the
  property about the requested date do not.
- *No last carrier lost* (`ProtocolSafety.DropsLastCarrier`): in any interleaving no state is
  stranded if and only if no step loses the last carrier of a queued notification, that is: a
  refused submission of the dispatcher or the watchdog, an acquisition that skips a locked row,
  the death of a worker before its acquisition or of a caller before its submission or
  rollback, when nobody else carries the notification.
- *Unchanged periods* (`ProtocolTiming.PeriodsUnchanged`): needed only for the effective date.

## What turned out false of the code

- "Every sweep that gets past acquisition and the application's quiet check makes progress" is
  false. A device's quiet period is looked at before the attempt cap
  (`notifications/services.py:515` and `:525`), so re-sending an exhausted row during that
  period makes it pending again with three attempts used, and the cap branch leaves it so:
  `Deliveries.DeferralRevivesExhaustedRow`, `Deliveries.ExhaustedPendingRowIsSweptForever`.
  A pass lowers the measure if and only if some row is workable (`Deliveries.PassProgress`); a
  due row is workable if and only if it has attempts left or its device is no longer eligible
  (`Deliveries.DueRowIsWorkableIff`). While the watchdog spares live runs, pending rows keep
  attempts left (but for the one whose failure is being recorded) if and only if no step defers
  an exhausted row and no worker dies between counting a last failure and saving it
  (`ProtocolDeliveries.PendingRowsHaveBudgetIff`); sweeping a state at rest then terminates.
  `RetryWitnesses.ExhaustedPendingRowIsReachable` gives a whole run that ends with such a row.
- The dispatcher does not roll back: when its submission fails after the update, or when the
  only submission meets a locked row, the notification can be queued for ever
  (`ProtocolSafety.FailedDispatchStrands`, `LockedAcquisitionStrands`). A queued notification
  without a carrier is lost for good if and only if it is stuck (`LostForeverIffStuck`): no
  sweep has found it, no run is live and no pending delivery has a retry date. Otherwise a
  sweep submits it again, or the live run writes its own status over it.
- When the watchdog fires on a live run, that run can push a row that another run has already
  sent (`ProtocolWitnesses.OverlappingRunsRepeatAPush`), although the watchdog's documentation
  (`notifications/tasks.py:101-103`) says pushed devices are not pushed again; and it can push
  before the effective date of the date that another run has just stored
  (`ProtocolWitnesses.GivenUpRunPushesBeforeStoredDate`). It is not even enough that a run was
  itself never requeued (`ProtocolWitnesses.OwningRunRepeatsAPush`); a run that has been alone
  since it loaded its rows pushes no sent row, whatever happened before
  (`ProtocolDeliveries.LoneRunPushesNoSentRow`).
- "After a takeover no link active under the previous owner is active" is false in two ways. The
  link endpoint commits the identification and the link separately
  (`devices/api_views_app_token.py:273-284`), so a device taken over in between ends up with an
  active link of the previous owner: `DeviceHistory.TakeoverBetweenIdentifyAndLink`. And it is
  false when the row of the token has no owner at that time. A plain identification leaves its links active, because
  of the guard `device.user_id is not None` (`devices/api_views_app_token.py:40`):
  `DeviceHistory.ForgottenOwnerKeepsLinks`. A rotation onto a device of the caller merges such
  a row (`:125`) and moves or revives its links: `RotationInheritsForgottenLinks`.
  `IdentifyIsTruthfulIff` and `LinkIsTruthfulIff` give the exact conditions for the two steps,
  `LinksBelongToOwnersIff` for whole histories. An ownerless device arises when a user who has
  devices is deleted in the administration site (`accounts/admin.py:7-8`), since the column is
  then set to null (`devices/models.py:17-19`). The account-deletion endpoint does not produce
  one: it deletes the devices first (`accounts/deletion.py:44`).
- A pending row with attempts left in a FAILED or PARTIAL notification always carries a retry
  date (`ProtocolRetries.NoPendingRowIsForgotten`), but a pending row without attempts may not:
  three workers that die between counting a failure and saving it leave one that no sweep ever
  finds (`RetryWitnesses.CrashesForgetAPendingRow`). Without such a crash, nor a deferral of an
  exhausted row, every pending row is dated (`ProtocolRetries.EveryPendingRowIsDated`).
- "FAILED means that no row is sent" is false when the owner's subscription has lapsed
  (`notifications/services.py:337-345`): `RetryWitnesses.LapseFailsDespiteASentRow`. After an
  acquired pass that ends FAILED, no row is sent if and only if the owner pays or none was sent
  before (`SendPass.FailedMeansNoneSentIff`).
- The docstring at `notifications/services.py:134-137` omits DRAFT, from which a run may start
  as well (`:28-33`), and the 15 minutes of the documented backoff (`:60`) are never waited,
  because the third failure is final.

## Model

| member | source | states |
|---|---|---|
| QuietPeriods.EndForPeriodMeaning | notifications/scheduling.py:24-55 | an end is reported exactly for the instants in some window of the period; it lies strictly later, everything in between is covered, and a well-formed period is over at it |
| QuietPeriods.RecurringPeriodIsWeekly | notifications/scheduling.py:35-55 | a recurring period covers an instant iff it covers the same instant any number of weeks away |
| EffectiveDate.EndFromMeaning | notifications/scheduling.py:66-74 | an end is reported iff some period covers the instant; it is the latest among the covering periods and it stays quiet until then |
| EffectiveDate.ComputeEffectiveScheduledFor | notifications/scheduling.py:77-96 | the loop, with both early exits, computes the last instant of the trail of at most 32 jumps |
| EffectiveDate.EffectiveDateMeaning | notifications/scheduling.py:77-96 | the effective date is not early, all before it is quiet, and it is the first free instant or exactly 32 jumps were made |
| EffectiveDate.ShiftReachesFreeInstant | notifications/scheduling.py:85-96 | the jumps suffice whenever the ends that can be met before a free instant are no more than the jumps left |
| EffectiveDate.CapSufficesWithinAWeek | notifications/scheduling.py:10-10 | any mix of periods with at most 32 windows and a free instant within a week: the first free instant |
| EffectiveDate.CapSufficesForRecurringPeriods | notifications/scheduling.py:35-55 | recurring periods with at most 32 days in all and a free instant: the first free instant, less than seven days away |
| EffectiveDate.CapSufficesForOneTimePeriods | notifications/scheduling.py:85-96 | at most 32 one-time periods: always the first free instant |
| EffectiveDate.CapIsTight | notifications/scheduling.py:10-10 | 33 one-time periods can leave the effective date quiet |
| QuietPeriodForms.SortedDistinctMeaning | applications/serializers.py:342-343 | the stored day list is strictly increasing and has exactly the submitted days |
| QuietPeriodForms.NoComplaintMeansWellFormed | applications/serializers.py:310-340 | the field-by-field rules accept a merged row iff, with sorted days, it is well formed |
| QuietPeriodForms.Validate | applications/serializers.py:297-345 | the error dictionary holds exactly the complaints about the row merged from request and stored values; it is empty iff the row is well formed; only then the days are rewritten |
| QuietPeriodForms.NormalizePayload | applications/serializers.py:347-359 | the keys of the other period type are overwritten with their empty values, the rest is kept |
| QuietPeriodForms.WrittenRowIsAccepted | applications/serializers.py:342-363 | validation, normalisation and attribute setting together store exactly the accepted row |
| QuietPeriodForms.PeriodTable.Create | applications/serializers.py:390-395 | stores the accepted row under a new id, or changes nothing when there are errors |
| QuietPeriodForms.PeriodTable.Update | applications/serializers.py:361-363 | replaces the row by the accepted one, or changes nothing when there are errors; all rows stay well formed |
| QuietPeriodForms.WrittenIsAccepted | applications/serializers.py:297-363 | the complaints, the rewritten days, the normalisation and the setting of attributes write a row exactly when the merged row is well formed, and then that row |
| QuietPeriodForms.ComplaintMeaning | applications/serializers.py:312-337 | which fields are missing, superfluous or contradictory for each type |
| QuietPeriodForms.StoredTypeAndFlag | applications/serializers.py:299-300 | the stored type and active flag are the sent ones, else the kept ones, else one-time and active |
| QuietPeriodForms.StoredOneTimeFields | applications/serializers.py:301-324 | a stored one-time row has the sent or kept dates, start before end, and nothing else |
| QuietPeriodForms.StoredRecurringFields | applications/serializers.py:303-337 | a stored recurring row has the sent or kept times, different, and no dates |
| QuietPeriodForms.StoredDays | applications/serializers.py:303-343 | and exactly the sent or kept days, increasing |
| QuietPeriodForms.EveryHistoryKeepsRowsWellFormed | applications/serializers.py:297-363 | after any history of creates, partial updates and deletes, each done by those steps, every stored period is well formed |
| QuietPeriodForms.EmptyUpdateIsIdentity | applications/serializers.py:361-363 | an empty partial update of a stored row is accepted and changes nothing |
| QuietPeriodForms.ChangeOfTypeNeedsItsOwnFields | applications/serializers.py:300-308 | a change of type is accepted only with all the fields of the new type in the request, and equals a creation |
| Deliveries.PassProgress | notifications/services.py:494-600 | outside device quiet periods the measure (budget, pending rows) never rises and drops iff some row is workable |
| Deliveries.SweepMakesProgress | notifications/tasks.py:33-49 | a sweep that finds a due row makes the following pass lower the measure, when pending rows have attempts left |
| Deliveries.SweepingTerminates | notifications/tasks.py:33-49 | the number of successive sweeps that find something is bounded by the initial measure |
| Deliveries.DeferralRevivesExhaustedRow | notifications/services.py:515-531 | an exhausted row re-sent in its device's quiet period becomes pending and due |
| Deliveries.ExhaustedPendingRowIsSweptForever | notifications/services.py:525-531 | such a row is found by every sweep and left exactly as it was |
| Deliveries.DueRowIsWorkableIff | notifications/services.py:494-531 | a due row is worked on iff it has attempts left or its device is ineligible |
| Notifications.TallyOfMeaning | notifications/services.py:463-467 | the five counters sum to the number of rows, each zero iff its verdict never occurred |
| Notifications.PassStatusMeaning | notifications/services.py:602-611 | after a full pass: SENT iff every row is sent, FAILED iff none is sent, deferred or waiting, PARTIAL otherwise |
| SendPass.Notification.Acquire | notifications/services.py:133-167 | acquires iff unlocked and startable; exactly the two columns change |
| SendPass.Notification.FailForLapsedSubscription | notifications/services.py:334-368 | every unsent row is cancelled, sent rows are kept, the row becomes FAILED, the result counts the cancelled rows |
| SendPass.Notification.LoadTargetDeliveries | notifications/services.py:82-118 | stored rows win; otherwise one pending row per linked device with an active token, in device order |
| SendPass.Notification.PushTo | notifications/services.py:533-600 | delivery, device and call log after the provider's answer, in each of the four cases |
| SendPass.Notification.HandleRow | notifications/services.py:494-531 | one iteration takes the specified branch, changes that row and its device only, and returns the verdict |
| SendPass.Notification.WorkThrough | notifications/services.py:463-600 | the loop handles every row as loaded, once, and the counters count the verdicts |
| SendPass.Notification.SendNotification | notifications/services.py:371-650 | the whole pass: row, deliveries, devices, calls and result for each of its four fates |
| SendPass.TargetsKeepOrder | notifications/services.py:70-79 | the materialised targets keep device order |
| SendPass.DevicesAfterMeaning | notifications/services.py:308-325 | a pass changes each device by its own row only |
| SendPass.CallsAreJustified | notifications/services.py:494-543 | the provider is called for a device iff its row is unsent, eligible, due, outside its quiet periods and has attempts left |
| SendPass.CallsKeepDeviceOrder | notifications/services.py:87-87 | calls follow the device order, so no device is called twice in a pass |
| SendPass.FailedMeansNoneSentIff | notifications/services.py:396-397 | after an acquired pass that ends FAILED, no row is sent iff the owner pays or no row was sent before |
| PassMeaning.FateMeaning | notifications/services.py:382-424 | how far a pass gets: by the lock and the statuses that forbid a start, the payment, and the application's quiet periods |
| PassMeaning.IdlePassMeaning | notifications/services.py:382-424 | a pass that may not start changes nothing; in a quiet period it sets SCHEDULED and the period's end, and no delivery row |
| PassMeaning.LapsedPassMeaning | notifications/services.py:334-345 | without payment every unsent row ends FAILED with its attempts and no retry date, and the notification FAILED |
| PassMeaning.WorkingPassMeaning | notifications/services.py:426-618 | otherwise the requested date is kept, and NO_TARGET, SENT and FAILED tell the truth about the rows |
| PassMeaning.PassCallsExactly | notifications/services.py:494-543 | a device is called iff the application is active, the device linked, its token active, itself active and not quiet, and its row unsent, due and failed fewer than three times |
| PassMeaning.WorkedRowMeaning | notifications/services.py:177-278 | every column of each row after a working pass, in each case: sent, ineligible, waiting, quiet, exhausted, accepted, refused |
| PassMeaning.LoadedMeaning | notifications/services.py:82-118 | stored rows are used; otherwise there is one new pending row per linked device with an active token |
| PassMeaning.WorkedDeviceMeaning | notifications/services.py:308-325 | a device changes only if called: an acceptance clears its failures, a refusal adds one, only an invalid token kills it |
| PassMeaning.VerdictMeaning | notifications/services.py:494-600 | which rows count as skipped, sent, waiting and deferred |
| PassMeaning.ResultMeaning | notifications/services.py:644-650 | the reported numbers are the targets and the rows sent, failed and skipped |
| PassMeaning.UnsentCountMeaning | notifications/services.py:362-368 | a lapsed pass reports the number of unsent rows |
| PassRefinement.PassIsAProtocolSchedule | notifications/services.py:371-650 | whatever its surroundings, the pass is a protocol schedule in which only its worker acts, ending in the same rows; the calls counted on each row grow exactly by the pass's calls |
| RunsArePasses.RunIsAPass | notifications/services.py:426-618 | conversely, whatever others do meanwhile, a run the watchdog spares leaves from its load to its finish the rows, status and counted calls of a pass over the loaded rows, for some looks in the order of the clock |
| RunsArePasses.RunStatusMeaning | notifications/services.py:602-618 | so the status it writes is SENT iff all rows are sent, and if FAILED none is |
| ProtocolSafety.SafetyInvariants | notifications/services.py:133-167 | in every interleaving: live runs (plus one unless PROCESSING) are at most one plus the watchdog requeues; PROCESSING iff a start date, SENT iff a sending date, SCHEDULED implies a date |
| ProtocolSafety.ExclusiveIffSpared | notifications/tasks.py:108-135 | in any interleaving at most one run is ever live, and the row is PROCESSING since its start, iff the watchdog never fires on a live run |
| ProtocolSafety.LeaseImpliesExclusivity | notifications/tasks.py:108-135 | both hold if every live run ends within the threshold |
| ProtocolSafety.WorkersAreNeverBlocked | notifications/services.py:494-495 | a live run in the loop always stands before a stored row or at the end of its list |
| ProtocolSafety.StrandsIffDropsLastCarrier | notifications/tasks.py:79-83 | a step strands the notification iff it loses the last carrier |
| ProtocolSafety.NoStateIsStranded | notifications/tasks.py:65-135 | in any interleaving a QUEUED row always has a carrier, a SCHEDULED one will be dispatched and a PROCESSING one will be requeued iff no step loses the last carrier |
| ProtocolSafety.LostForeverIffStuck | notifications/tasks.py:33-49 | a stranded notification is beyond every path of rescue iff it is stuck |
| ProtocolSafety.StuckForever | notifications/tasks.py:82-83 | a queued row without carrier and without due delivery is left by no action of any actor |
| ProtocolSafety.FailedDispatchStrands | notifications/tasks.py:79-83 | a failed submission of the dispatcher reaches such a state |
| ProtocolSafety.LockedAcquisitionStrands | notifications/services.py:139-147 | so does an acquisition that skips a locked row |
| ProtocolDeliveries.RowsStep | notifications/services.py:494-600 | every step between states with at most one live run keeps the conservation of provider calls and the freshness of the loaded rows |
| ProtocolDeliveries.ProviderCallsAreBounded | notifications/services.py:254-278 | provider calls of a delivery are at most three plus the answers lost in crashes; a sent row has at most two failures |
| ProtocolDeliveries.SentDeliveryIsFinal | notifications/services.py:169-170 | a sent delivery stays exactly as it is and is never pushed again |
| ProtocolDeliveries.CallsRespectBackoff | notifications/services.py:58-68 | the next call is at least one minute after a first and five minutes after a second saved failure |
| ProtocolDeliveries.SentNotificationIsDelivered | notifications/services.py:602-618 | a SENT notification has at least one row, only sent rows and a sending date |
| ProtocolDeliveries.LoneRunPushesNoSentRow | notifications/services.py:494-503 | in any interleaving, a run that has been the only live one since it loaded its rows pushes no sent row |
| ProtocolDeliveries.BudgetStepIff | notifications/services.py:515-531 | a step leaves a pending row without attempts iff it defers an exhausted row, or the worker dies after counting a last failure and before saving it |
| ProtocolDeliveries.PendingRowsHaveBudgetIff | notifications/services.py:254-278 | so no pending row is ever without attempts, but for the one being recorded, iff no step does so |
| ProtocolDeliveries.RestingPendingRowsHaveBudget | notifications/services.py:254-278 | at rest, if no step so far did so, every pending row has attempts left |
| ProtocolRetries.NoPendingRowIsForgotten | notifications/tasks.py:37-46 | in a FAILED or PARTIAL notification every pending row with attempts left carries a date from which the sweep finds it, whatever crashes, rollbacks and re-sends occurred |
| ProtocolRetries.EveryPendingRowIsDated | notifications/tasks.py:37-46 | and every pending row does if no step spent a row out |
| ProtocolTiming.NoPushBeforeEffectiveDate | notifications/services.py:399-424 | in every interleaving, overlapping runs included, no provider call before the effective date of the requested date, even past the cap of 32 |
| ProtocolTiming.NoPushBeforeStoredDate | notifications/services.py:399-424 | nor before that of the date stored at the time, if the watchdog spares live runs |
| ProtocolWitnesses.OverlappingRunsRepeatAPush | notifications/services.py:614-618 | when the watchdog fires on a live run, an interleaving pushes a sent row again |
| ProtocolWitnesses.OwningRunRepeatsAPush | notifications/services.py:494-503 | the run that owns the notification can push a row that the given-up run has just sent |
| ProtocolWitnesses.GivenUpRunPushesBeforeStoredDate | notifications/services.py:399-406 | and an interleaving pushes before the effective date of the stored date |
| RetryWitnesses.ExhaustedPendingRowIsReachable | notifications/services.py:515-531 | a run of four sends ends with a pending row whose attempts are used up |
| RetryWitnesses.LapseFailsDespiteASentRow | notifications/services.py:337-345 | a run of two sends ends FAILED with a sent row |
| RetryWitnesses.CrashesForgetAPendingRow | notifications/services.py:254-278 | three crashes while recording leave a pending row in a FAILED notification that no sweep ever finds |
| QueueRequests.Backend.TryQueueNotification | notifications/api_views.py:759-858 | exactly when it succeeds and with which refusal it fails, its submission, the row and the loaded status, whatever others write around it |
| QueueMeaning.AttemptMeaning | notifications/api_views.py:772-858 | the answer, loaded status and rows of an attempt, by the application, the statuses and date that may be sent by hand, and the stored row |
| QueueMeaning.ChecksAreTheReadGuard | notifications/api_views.py:779-795 | on an up-to-date row an attempt passes its checks iff the protocol lets a new caller read the row |
| QueueMeaning.AttemptIsAProtocolPath | notifications/api_views.py:797-852 | it is then the path read, update, submit, or read, update, refused submission and rollback, with the same rows |
| QueueMeaning.FutureDateIsNotQueued | notifications/api_views.py:779-788 | a notification scheduled for later is refused and nothing is written |
| QueueMeaning.FutureDateIsNotQueuedInBulk | notifications/api_views.py:1025-1036 | nor does the bulk request queue it |
| QueueMeaning.CalmBulkQueues | notifications/api_views.py:1025-1036 | undisturbed, the bulk request queues exactly the listed, found, active and sendable notifications whose status is up to date |
| QueueRequests.Backend.BulkSend | notifications/api_views.py:1015-1038 | the two lists, the loaded statuses, the rows and the broker after the loop, whatever others write between the attempts |
| QueueRequests.BulkAnswersInFull | notifications/api_views.py:1022-1038 | the two lists share the ids out in their order, none is queued twice, unknown ids are reported as not found |
| QueueRequests.BulkPartitions | notifications/api_views.py:1022-1038 | the ids are the queued ones and the errors together, with multiplicity |
| QueueRequests.BulkIsCalm | notifications/api_views.py:1025-1036 | undisturbed, exactly the admissible ids are queued and exactly their rows change |
| QueueRequests.ExactlyOneCallerWins | notifications/api_views.py:797-825 | of callers racing from the same status exactly one wins, the others leave without submitting |
| QueueRequests.CallersSubmitAtMostOneTask | notifications/api_views.py:827-852 | under any interleaving of reads, races, failures and rollbacks at most one submission reaches the broker |
| QueueRequests.CallersRespectOthersWrites | notifications/api_views.py:797-852 | in every interleaving a caller changes the row only from a status that may be queued to QUEUED, or by a rollback from QUEUED to such a status; never a PROCESSING, SENT or NO_TARGET row |
| QueueRequests.UndisturbedRollbackRestores | notifications/api_views.py:827-847 | if nobody else writes the row in between, a rollback restores exactly the row that its own update replaced |
| BeatTasks.Beat.DispatchScheduledNotifications | notifications/tasks.py:53-85 | rows, submissions and abort of the loop over exactly the ids due at the scan, whatever others write in between |
| BeatTasks.Beat.RequeueStuckProcessingNotifications | notifications/tasks.py:89-137 | the same for the ids stuck at the scan |
| BeatTasks.Beat.RetryPendingDeliveries | notifications/tasks.py:33-49 | submits each notification with a due delivery, once, in any order, and writes no row; it aborts iff a submission is refused |
| BeatTasks.RoundMeaning | notifications/tasks.py:64-83 | a round submits an increasing selection of the scanned ids; undisturbed, exactly these are rewritten and submitted |
| BeatTasks.RaisedRoundIsOver | notifications/tasks.py:82-83 | after a refused submission the round writes and submits nothing more |
| BeatTasks.IterationIsAProtocolStep | notifications/tasks.py:65-135 | seen from any notification, an iteration is what others wrote before it followed by the protocol's step if that is enabled at that moment, else by nothing |
| ProtocolSafety.RequeuesAreApart | notifications/tasks.py:98-100 | in every interleaving two requeues of a notification are more than the threshold apart |
| Creation.NotificationTable.CreateNotification | notifications/creation.py:23-121 | creates iff the key is empty or new, else returns the stored row; conflict iff fingerprints differ |
| Creation.CreatedRowBeginsTheProtocol | notifications/creation.py:17-40 | the created row carries the requested date, SCHEDULED with one and DRAFT without, begins a behaviour of the protocol, and is dispatched once its date has come |
| Creation.StoredDateIsTheCreators | notifications/creation.py:81-121 | in any interleaving a stored row carries its creator's date and fingerprint |
| Creation.InvariantHolds | notifications/creation.py:81-121 | in every interleaving keys are unique, every answer is true of the table and every row has one creator |
| Creation.OneCreationPerKey | notifications/creation.py:81-121 | among callers with one application and key exactly one reports created, all return the same row, conflict iff fingerprints differ |
| Creation.OneDispatchPerKey | notifications/api_views_app_token.py:320-326 | the one-shot endpoint attempts at most one dispatch per key |
| Devices.MergeUnitesActiveApplications | devices/api_views_app_token.py:83-93 | the target ends up linked to exactly the applications either device was linked to |
| Devices.MergeUnitesNotifications | devices/api_views_app_token.py:95-98 | its deliveries cover exactly both notification sets, its own rows winning |
| Devices.MergeConserves | devices/api_views_app_token.py:73-100 | unions, moved quiet periods, the source gone, no third device touched, all constraints kept |
| DeviceStore.Store.ApplyDeviceFields | devices/api_views_app_token.py:39-57 | device fields and the end of links on a change of owner |
| DeviceStore.Store.MergeLinks | devices/api_views_app_token.py:83-93 | the loop over the source's links, in any order, computes the merged links |
| DeviceStore.Store.MergeDeviceInto | devices/api_views_app_token.py:73-100 | the tables become the merged tables |
| DeviceStore.Store.RotatePushToken | devices/api_views_app_token.py:103-132 | rotates exactly when the old token is the caller's and the new one nobody else's; otherwise nothing changes |
| DeviceStore.Store.UpsertAuthenticatedDevice | devices/api_views_app_token.py:135-166 | rotation, update or creation, also when a rival inserts the same token first |
| DeviceHistory.IdentifiedRowMeaning | devices/api_views_app_token.py:39-57 | on every arm the identified row is the caller's, has the submitted token, name and platform, and is fully live; all other rows are untouched |
| DeviceHistory.DeadDeviceWasInvalidatedLast | devices/api_views_app_token.py:49-56 | over any history a device is dead only if it was invalidated after its last identification |
| DeviceHistory.RotatesExactlyWhen | devices/api_views_app_token.py:114-132 | the previous token's row takes the new token iff it is the caller's and the new token is nobody else's |
| DeviceHistory.LinkedMeaning | devices/api_views_app_token.py:284-300 | linking leaves the device linked, by at most one new or revived link without audit, and no other link changed |
| DeviceHistory.LinkEndedMeaning | applications/api_views.py:553-566 | ending a link sets date and source on the active link and changes no other |
| DeviceHistory.UnlinkedMeaning | devices/api_views_app_token.py:353-367 | an unlink request ends the caller's link and never one of a device that is not the caller's |
| DeviceStore.Store.LinkToApplication | devices/api_views_app_token.py:284-300 | get-or-create with reactivation |
| DeviceStore.Store.UnlinkFromApplication | devices/api_views_app_token.py:353-367 | ends the caller's active link and says so iff something changed |
| DeviceStore.Store.EndLink | applications/api_views.py:553-567 | sets the audit on an active link, and tells a link that ended already from one that never was |
| DeviceHistory.HistoryKeepsConstraints | devices/models.py:79-82 | over any history: unique tokens, one link per device and application, active iff no unlink audit, no dangling row |
| DeviceHistory.IdentifyIsTruthfulIff | devices/api_views_app_token.py:135-166 | after one identification, by rotation or not, every active link of an owned device was activated for that owner iff the caller inherits no link of an ownerless row |
| DeviceHistory.LinkIsTruthfulIff | devices/api_views_app_token.py:284-300 | linking a device keeps this iff the device has not become another user's meanwhile, unlinked from the application |
| DeviceHistory.LinksBelongToOwnersIff | devices/api_views_app_token.py:273-300 | over a whole history this holds throughout iff no identification inherits a link and no link comes late |
| DeviceHistory.NoLinkSurvivesItsOwner | devices/api_views_app_token.py:40-45 | while no device loses its owner and no link comes late, every device is owned and every active link was activated for the present owner |
| DeviceHistory.TakeoverEndsLinksIffOwnedByAnother | devices/api_views_app_token.py:40-45 | an application of the identified token's row stays linked, by rotation or not, iff that row was the caller's or nobody's; a link that ends says so |
| DeviceHistory.ForgottenOwnerKeepsLinks | devices/api_views_app_token.py:40-45 | a history in which an ownerless device is taken over with active links |
| DeviceHistory.TakeoverBetweenIdentifyAndLink | devices/api_views_app_token.py:273-300 | a history in which a device is taken over between the two transactions of a link request and keeps the late link |
| DeviceHistory.RotationInheritsForgottenLinks | devices/api_views_app_token.py:123-127 | a history in which a rotation moves an ownerless row's active link onto the caller's device |
| DeviceHistory.IdentifyRespectsForeignDevices | devices/api_views_app_token.py:123-127 | another user's device is never removed, merged or renamed and keeps exactly its deliveries and quiet periods; unless its token is identified it and its links stay as they are, else it changes owner and its active links end |
| DeviceHistory.RotationKeepsTheDevice | devices/api_views_app_token.py:123-132 | the same row carries the new token, the old token names nobody, applications unite |
| SenderPolicy.NormalizeEntryIsIdempotent | applications/inbound_sender_policy.py:72-104 | a valid entry is stored in normal form and normalises to itself |
| SenderPolicy.NormalizeEntries | applications/inbound_sender_policy.py:107-135 | errors iff some entry is invalid, refused iff more than 200 distinct ones, else the distinct normal forms |
| SenderPolicyMeaning.NormalMeaning | applications/inbound_sender_policy.py:74-74 | the normal form is the text between the surrounding white space, in small letters |
| SenderPolicyMeaning.NormalizeEntryMeaning | applications/inbound_sender_policy.py:72-104 | exactly which addresses, domains and wildcard domains are valid, and which error the others get |
| SenderPolicy.DedupedMembers | applications/inbound_sender_policy.py:117-135 | no duplicates, and exactly the normal forms of the non-blank entries |
| SenderPolicy.DedupedKeepsOrder | applications/inbound_sender_policy.py:107-108 | the order of first occurrence is kept |
| SenderPolicy.DedupedIsIdempotent | applications/inbound_sender_policy.py:107-135 | normalising a normalised list changes nothing |
| SenderPolicy.DedupedStaysValid | applications/inbound_sender_policy.py:107-135 | a normalised valid list is valid |
| SenderPolicy.SenderMatches | applications/inbound_sender_policy.py:138-160 | true iff some entry matches the sender |
| SenderPolicyMeaning.AfterLastAtMeaning | applications/inbound_sender_policy.py:149-149 | the sender's domain is what follows its last at sign |
| SenderPolicyMeaning.EntryMatchesExactly | applications/inbound_sender_policy.py:141-158 | an address entry matches that very address, a domain entry that very domain |
| SenderPolicyMeaning.ListMatchesIff | applications/inbound_sender_policy.py:152-160 | a list matches iff one of its entries does |
| SenderPolicyMeaning.DecisionMeaning | applications/inbound_sender_policy.py:170-184 | what each mode accepts, and exactly when each reason is given |
| SenderPolicyMeaning.OwnerModeIsStricter | applications/inbound_sender_policy.py:180-184 | owner mode accepts no sender that anyone mode refuses, and with an empty allowlist the owner alone |
| SenderPolicy.DedupedKeepsMatches | applications/inbound_sender_policy.py:138-160 | normalising a list never changes which senders it matches |
| SenderPolicy.WildcardMatchesLabelSuffix | applications/inbound_sender_policy.py:143-157 | a wildcard entry matches iff its labels are the last labels of the sender's domain |
| SenderPolicy.NormalisingKeepsDecisions | applications/inbound_sender_policy.py:170-184 | decisions depend neither on normalisation of the lists nor on case and padding of the sender |
| SenderPolicy.ListsActMonotonically | applications/inbound_sender_policy.py:175-184 | blocking more can only refuse and never the owner, allowing more can only accept and never a blocked sender |

## Left out

- Time zones and daylight saving: local time is integer microseconds with a fixed offset, so every day has the same length and the exit `quiet_period_end <= effective` (`notifications/scheduling.py:93`) is written but never taken.
- The push provider, webhooks, billing, mail, DNS and logging: the provider's answer and the paid flag are parameters; callbacks and metrics are not modelled.
- Message texts, provider ids, error messages and names of rows: they steer no branch.
- Database failures inside a pass and devices deleted during one are crashes of the run, not branches.
- The clock is read once per row before the provider call (waiting and device quiet period share one reading), and the cancellations of a lapsed pass share one instant.
- The application's quiet check and the rescheduling it causes are one step of the protocol; loading or materialising the delivery rows is one step as well.
- Delivery rows of the protocol never disappear: a device merge or deletion between passes, which moves or removes rows (`devices/api_views_app_token.py:95-100`), is part of `Devices` only.
- The rest of a worker's in-memory copy of devices: eligibility and quiet end are arbitrary per row in the protocol, so staleness is covered but not tracked.
- Editing a future notification (`notifications/serializers.py:640-656`) is one atomic step on a row that is still scheduled; a stale edit racing the dispatcher is not modelled.
- Deleting notifications, soft deletion, retention, visibility and owner filters.
- The SQLite branches (`notifications/creation.py:53-79` and the unlocked reads).
- Two requests that interleave inside one rotation: a rotation that fails on the unique token rolls back as a whole.
- The registration and app-token authentication around the device endpoints, and the blank-stripping of the previous token by the serializer.
- Text beyond ASCII in case folding and stripping; the e-mail syntax check is a parameter, and error messages are represented by their kind.
- Filters and ordering of lists by effective date, display serializers, statistics, accounts, templates and administration: they would only add easy members.
- SendPass.Notification.SendNotification: one uninterrupted pass; concurrent writers are the business of the protocol, to which it is tied by PassRefinement.PassIsAProtocolSchedule.
- ProtocolSafety.NoStateIsStranded: a safety property; that a waiting worker or timer eventually acts is scheduling, which is not modelled.
- The Django columns `invalidation_reason` and `provider_message_id`, and the device's `application_links` of inactive applications in displays.
