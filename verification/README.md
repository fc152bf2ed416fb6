# A verified model of the prayer-time automation service

The repository is a Node service that fetches prayer times, schedules audio events from them, keeps a
layered configuration and serves a React client that pages through the calendar. This project models
the parts of it where the behaviour is decided by state, interleaving or arithmetic, and proves what
they promise for every input and every run. `dafny verify dfyconfig.toml` checks all of it.

How the program's terms are represented:

- Time is an integer number of milliseconds, a calendar day an integer, a zone one fixed offset in minutes.
- JSON is a datatype (`JsonTree.Json`); a missing value, `null` reference or `undefined` is `None`, a thrown
  error an `Err`, and what the outside world does (a provider's answer, a failing write, the moment a timer
  goes off) is a parameter or an event.
- Code that runs between two `await`s is one atomic event. Runs are sequences of events, and a result about
  "every run" quantifies over all sequences whose events are enabled when they happen.
- Objects whose methods update fields (`Lock`, `PrayerTimeService`, `SchedulerService`, `ConfigService`,
  `ConfigObject`, `MigrationRun`, `AudioAssetService`, `EnvManager`, the hook `PrayerTimesHook`) are classes;
  each method is proved equal to a function of state, and the results about runs are about such functions. Where a method
  spans awaits it is the uninterrupted call, and a lemma shows that its segments in a row make up that call
  (`CalledAlone`, `EnsuredAlone`, `LoadAloneIsLoad`).
- What an operation makes of its inputs is also stated without the functions that compute it, position by position or
  slot by slot (`DayPlan`, `ClientNavigation`, `ConfigUpdates`, `ConfigPositions`, `ConfigReload`, and the lemmas of the
  other modules whose names end in `Says`).

Where the code does not keep what its comments or names suggest, the model follows the code and a lemma gives the
exact condition under which the promise holds:

- when one `initScheduler` run starts while another awaits, a slot is armed once if and only if not both find it still
  to come, and a run that awaits when `stopAll` is called arms afterwards what it finds still to come
  (`OverlapDuplicatesIff`, `StopForgottenIff`, `StopAllQuietIff`);
- the lock key leaves out the day, so a caller gets its own day if and only if nothing is in flight under its key or
  what is in flight was started for that day (`OwnDateExactly`, `WrongDay`);
- two overlapping provider fetches keep of the first one's days those the second brought too or the cache had
  (`OverlapKeepsExactly`, `OverlapHarmlessIff`), a forced refresh can join a run that looked before the file was removed
  and be answered from the cache, and such a run can bring the old days back (`AskedExactly`, `RefreshJoinsOldLook`,
  `ForgottenIff`);
- merging is not associative where `null` stands between two objects (`MergeAssociates`, `MergeOrderMatters`);
- all saves of the configuration share one temporary file, so a save can store another's tree, an update can throw with
  its own tree stored and a load that upgrades the file can fall back on the defaults (`SaveStoresOwnIff`,
  `StoredThoughThrownIff`, `UpgradeFallsBackIff`); a load that read the file before an update's rename can put the old
  configuration back or overwrite the update (`HeldIsLoadIff`, `CommitKeptIff`);
- an update refuses a registered output's lead that a load of the same tree would clamp (`ValidatorsPartIff`);
- rounding to a step that does not fit the hour is neither monotone nor least (`IqamahMonotoneIff`);
- a chunk reply that arrives after a midnight prune can leave a gap, and the prune can leave a boundary flag
  set although there are days beyond the edge (`GapAcrossMidnightIff`, `FlagAfterMidnightIff`);
- a reference date that advances during a day transition cancels the commit timer but not the transition on
  display, and the reply to the fetch it triggers replaces the viewed day (`DisplayPartsIff`, `DisplayHonestIff`,
  `MidnightReplyIff`);
- `isWithinRoot` rejects a file in the root whose first segment begins with two dots (`WithinRootIff`);
- `deleteEnvValue` calls launched without waiting lose a deletion if and only if a key the file mentions is read while
  another is between its read and its write, and all but one if all read first (`AllGoneIff`, `OverlapRemovesOne`); and a
  line that a carriage return hides comes back to life when the file is written (`SetIff`, `ReturnRevives`);
- a speech generation that fails after writing, two overlapping generations for one file, or a rewrite of a sidecar that
  has changed meanwhile can leave a file that a later sync keeps under the wrong text (`SoundThroughoutIff`,
  `NestedTasksMislead`, `InterruptedGenerationMisleads`), and diagnostics does not look at the voice (`KeptIsGenerated`).

Two conditions are latent, since the program never gives the code the input in question:

- a plain function that throws synchronously leaves its key in the lock for ever, whereas an `async` function only
  rejects and its key is deleted; both callers of the lock pass `async` functions (`SingleFlightExactly`, `StuckForever`);
- saving removes provider secrets even where the environment does not hold them; no registered provider declares one,
  and then stripping is invisible (`StripInvisibleIff`, `StripInvisibleWithoutSecrets`, `DeclaredSecretLost`).

## Model

| member | source | states |
|---|---|---|
| Scheduler.SchedulerService.ClearJobs | src/services/core/schedulerService.js:21-27 | the loop cancels every listed job, so nothing listed stays armed, and empties the list |
| Scheduler.SchedulerService.ScheduleMaintenanceJobs | src/services/core/schedulerService.js:140-329 | appends and arms the five named maintenance jobs in order |
| Scheduler.SchedulerService.ScheduleEvent | src/services/core/schedulerService.js:75-132 | switches, lead time, catch-up minute and arming, as one function of the old state |
| Scheduler.SchedulerService.InitStart | src/services/core/schedulerService.js:338-342 | the part of initScheduler before its await: clear, then maintenance |
| Scheduler.SchedulerService.InitResume | src/services/core/schedulerService.js:346-432 | the part after the await schedules exactly the plan of the day, prayer by prayer, up to a calculation that throws |
| SchedulerRuns.PassCounts | src/services/core/schedulerService.js:97-131 | a pass gives each slot one fate: pending adds exactly one armed job, caught up exactly one firing, anything else neither |
| SchedulerRuns.FateMeans | src/services/core/schedulerService.js:101-118 | the fate of a slot is pending, caught up or skipped by its due time alone, and unplanned only if no time is wanted |
| SchedulerRuns.RunSees | src/services/core/schedulerService.js:338-348 | in every run jobs are armed and fired by the clock and under the configuration last saved, and a run that awaits keeps the one that held when it started |
| SchedulerRuns.PlanDistinct | src/services/core/schedulerService.js:358-427 | one pass never schedules a prayer's event twice |
| SchedulerRuns.RunKeepsInv | src/services/core/schedulerService.js:21-438 | every interleaving keeps: armed jobs are listed with distinct ids, all armed jobs and firings were wanted, nothing wanted since the last clear is lost |
| SchedulerRuns.JobListSafe | src/services/core/schedulerService.js:21-27 | in every run clearing disarms everything, five maintenance jobs are armed from a start to the next stopAll, and a slot has at most as many armed jobs as passes resumed since the last clear |
| SchedulerRuns.OneJobPerSlot | src/services/core/schedulerService.js:338-427 | runs that do not overlap never arm a slot twice |
| SchedulerRuns.ArmedConserved | src/services/core/schedulerService.js:21-132 | between clears, from any state and over any interleaving, a slot's armed jobs plus its spent timers equal the armed jobs before plus the passes that found it still to come |
| SchedulerRuns.ArmedOnceIff | src/services/core/schedulerService.js:21-132 | after a clear a slot is armed at most once if and only if at most one more pass found it still to come than timers of it were spent |
| SchedulerRuns.OverlapDuplicatesIff | src/services/core/schedulerService.js:338-348 | in any state in which one run awaits when another starts, each plan that finds a slot still to come arms it: at most once if and only if not both do |
| SchedulerRuns.StopForgottenIff | src/services/core/schedulerService.js:549-555 | after stopAll in any state, a run that was awaiting arms exactly the slots it finds still to come, without maintenance |
| SchedulerRuns.StopAllQuietIff | src/services/core/schedulerService.js:549-555 | after stopAll nothing is armed before the next start if and only if no awaiting run resumes to find a slot still to come; so always when none awaited |
| SchedulerRuns.FiringsInTime | src/services/core/schedulerService.js:97-118 | in any run an event for time T with largest lead L fires within T-L and a minute later, at T-L or at the moment of a pass |
| SchedulerRuns.NothingLost | src/services/core/schedulerService.js:101-131 | an event wanted by a pass since the last clear has fired once its due time is over: on time, or at once if the pass came within the minute after |
| SchedulerRuns.FiringBudget | src/services/core/schedulerService.js:75-132 | with fixed configuration and day, non-overlapping runs fire an event at most once more than there are passes in its minute, and never early |
| DayPlan.PlanSays | src/services/core/schedulerService.js:355-432 | a pass plans exactly these: for each prayer with a start, up to a calculation that throws, an enabled trigger at the start, at the iqamah the rule picks, or so many minutes before either, sunrise without the iqamah ones |
| DayPlan.WantsTheDaysTimes | src/services/core/schedulerService.js:75-132 | a resumed run wants of a slot exactly those times of its day, early by the largest lead, unless its kind is switched off |
| DayPlan.FiringsAnswerTheDay | src/services/core/schedulerService.js:97-432 | in every interleaving each firing answers such a time of the day some resumption was given, at that time less the largest lead or at that resumption, at most a minute late |
| StaggeredLaunch.GetMaxLeadTime | src/services/core/schedulerService.js:37-64 | the loop returns the largest lead of an active target, zero for a disabled trigger |
| StaggeredLaunch.GetActiveTargets | src/services/core/automationService.js:184-209 | every active target exactly once with its lead, and the same maximum the scheduler computes |
| StaggeredLaunch.ExecuteTarget | src/services/core/automationService.js:219-252 | the wait is non-negative and the abort moment is the launch plus the full timeout |
| StaggeredLaunch.TriggerEvent | src/services/core/automationService.js:261-302 | launches each target that runs exactly once, held back by the largest lead less its own, and aborts it one full timeout later, five seconds where none is declared |
| StaggeredLaunch.MaxLeadUnique | src/services/core/schedulerService.js:46-61 | the two separately computed maxima are equal |
| StaggeredLaunch.MaxLeadSays | src/services/core/schedulerService.js:37-64 | the maximum is at least every lead of a target that runs and is one of them, zero when none runs with a lead |
| StaggeredLaunch.StaggerExact | src/services/core/automationService.js:228-252 | each target starts its own lead before T plus a preparation delay common to all |
| AsyncLock.Lock.Run | src/utils/asyncLock.js:21-37 | joins the pending promise or starts one; a plain function that throws synchronously leaves its key behind, an async one that rejects does not |
| AsyncLock.SingleFlightExactly | src/utils/asyncLock.js:21-37 | over all interleavings a key is in the map exactly while its one execution is in flight, if and only if no plain function threw synchronously |
| AsyncLock.StuckForever | src/utils/asyncLock.js:27-35 | after such a synchronous throw every later caller of the key is handed that failure, whatever happens |
| AsyncLock.CallJoinsOrStarts | src/utils/asyncLock.js:22-25 | a caller is bound to the run in flight for its key, or starts one with its own argument |
| AsyncLock.TicketsHonoured | src/utils/asyncLock.js:21-37 | every caller receives the outcome of the run it joined or started |
| AsyncLock.OwnDateExactly | src/services/core/prayerTimeService.js:163-171 | known at the call: a getPrayerTimes caller that is answered gets its own date exactly when nothing is in flight under its key or what is in flight was started for that date |
| AsyncLock.FreeKeyOwnDate | src/services/core/prayerTimeService.js:163-171 | on a free key every caller gets its own date, over every continuation |
| AsyncLock.WrongDay | src/services/core/prayerTimeService.js:167-169 | for any two days of a year and source there is a run that answers one caller with the other's day |
| PrayerCache.PrayerTimeService.ReadCache | src/services/core/prayerTimeService.js:301-318 | memory becomes the file's content, empty when the file is missing or corrupt |
| PrayerCache.PrayerTimeService.WriteCache | src/services/core/prayerTimeService.js:326-334 | memory changes only together with the file |
| PrayerCache.PrayerTimeService.GetPrayerTimes | src/services/core/prayerTimeService.js:163-292 | memory, file, primary, backup in that order, with the state and result of each branch and the sources it asked |
| PrayerCache.CallSays | src/services/core/prayerTimeService.js:163-292 | an uncached call is answered from the map the primary or else the backup brings, from the cached days for a date only those have, and not at all for a date in neither, and it stores those days overridden by that map when the write succeeds |
| PrayerCache.PrayerTimeService.ForceRefresh | src/services/core/prayerTimeService.js:434-442 | drops memory and file, then asks for today |
| PrayerCache.CacheMeetsHistory | src/services/core/prayerTimeService.js:163-334 | without overlapping calls the file is the left-to-right override of all maps delivered since the last refresh, memory is null, empty or equal to it, and each served day is the overridden latest value, where what a call delivers is the map of the primary, or of the enabled backup after a primary that has none |
| PrayerCache.ServiceStarts | src/services/core/prayerTimeService.js:301-318 | a service that starts over a file begins the history with the file's days as its only map, over no file with none |
| PrayerCache.FailoverRules | src/services/core/prayerTimeService.js:220-275 | a fresh answer names a source whose map was not empty, the backup only after a primary that had none, and a validation error reaches the caller exactly when the caches miss and the primary raised it |
| PrayerCache.BackupHeardIff | src/services/core/prayerTimeService.js:220-275 | no answer of the backup changes a call's outcome if and only if the call does not ask it, which is whenever the caches hit, the primary has days or fails validation, or the backup is off |
| PrayerCache.RefreshIsUncachedExactly | src/services/core/prayerTimeService.js:434-442 | a refresh that no other call overlaps answers from the cache exactly when removing the file failed and the file holds the day |
| PrayerCache.OverlapKeepsExactly | src/services/core/prayerTimeService.js:191-292 | of two fetches that both read the cache before either writes, a day the first brought stays if and only if the second brought it too or the shared cache had it |
| PrayerCache.OverlapHarmlessIff | src/services/core/prayerTimeService.js:191-292 | the overlap leaves what one fetch after the other would leave if and only if each day of the first is in the second's map or unchanged from the cache |
| LockedCache.StepIsLockStep | src/services/core/prayerTimeService.js:163-171 | lock and cache composed: every segment of calls and refreshes is a step of the lock or leaves it alone, so what the lock keeps over every run it keeps here |
| LockedCache.CalledAlone | src/services/core/prayerTimeService.js:163-334 | the segments of an execution, cut at every await, make up the uninterrupted call |
| LockedCache.CachedExactly | src/services/core/prayerTimeService.js:171-199 | over every interleaving an execution in flight answers from the cache exactly when it has found its day or the file has it at the moment it reads |
| LockedCache.AskedExactly | src/services/core/prayerTimeService.js:163-199 | in every continuation a call, a refresh's included, is answered for the day of the run it joins or starts, and from the cache exactly when that run is going to, or on a free key when memory has the day at the call or the file when the run reads |
| LockedCache.RefreshJoinsOldLook | src/services/core/prayerTimeService.js:434-442 | a refresh that removes the file and joins a run that has read it is answered from the cache and finds the memory refilled |
| LockedCache.ForgottenIff | src/services/core/prayerTimeService.js:434-442 | a day that providers no longer bring comes back into memory or file in no continuation if and only if neither has it and no execution in flight carries it |
| LockedCache.RefreshForgetsIff | src/services/core/prayerTimeService.js:434-442 | so a refresh that removes the file forgets a day for good if and only if no execution in flight at that moment carries it |
| CalendarWindow.DirectionalWindow | src/services/core/prayerTimeService.js:107-135 | each of the seven calls may be answered differently: a chunk is the consecutive days from the cursor up to the first one not available when asked, in ascending order for both directions |
| CalendarWindow.DefaultWindow | src/services/core/prayerTimeService.js:137-153 | the default page is every available day from a week before to a week after |
| CalendarWindow.PagingTiles | src/services/core/prayerTimeService.js:107-134 | feeding the far edge back as cursor enumerates the days without gap or repeat, exactly to the first unavailable day or the end of the last page |
| ClientPages.JoinIff | client/src/hooks/usePrayerTimes.js:312-315 | two gap-free calendars join without a gap if and only if they touch |
| ClientPages.RunContiguous | client/src/hooks/usePrayerTimes.js:29-44 | the calendar stays gap-free over every run of edge chunks, touching gap-free pages and prunes, whatever the sources answer |
| ClientPages.StaleChunkIff | client/src/hooks/usePrayerTimes.js:300-315 | a chunk from any cursor keeps the calendar gap-free if and only if it touches it |
| ClientPages.GapAcrossMidnightIff | client/src/hooks/usePrayerTimes.js:122-124 | when a prune comes between a request from the edge and its reply, the calendar stays gap-free if and only if the reply is empty, the edge survived or nothing did |
| ClientPages.FlagsSound | client/src/hooks/usePrayerTimes.js:302-319 | with one source and no prune of a flagged edge, a set boundary flag is never wrong, over every run |
| ClientPages.FlagAfterMidnightIff | client/src/hooks/usePrayerTimes.js:122-124 | after a prune a set flag is still true if and only if the prune left its edge |
| IsoDate.StringOrderIsDayOrder | client/src/hooks/usePrayerTimes.js:46-56 | comparing YYYY-MM-DD strings compares the days, equality included |
| IsoDate.NextDayNumber | client/src/hooks/usePrayerTimes.js:363-365 | the day numbers used for that follow the calendar's own successor through months and leap years |
| IsoDate.LaterDateIsLater | client/src/hooks/usePrayerTimes.js:46-56 | getLaterDate on two dates returns the later day |
| ClientCalendar.PrayerTimesHook.StartDayTransition | client/src/hooks/usePrayerTimes.js:162-180 | does nothing during a transition, else replaces the commit timer by one for the target |
| ClientCalendar.PrayerTimesHook.ApplyPayload | client/src/hooks/usePrayerTimes.js:182-248 | merges the calendar, takes the later reference and keeps or replaces the viewed day, stale payloads included |
| ClientCalendar.PrayerTimesHook.HandleMidnight | client/src/hooks/usePrayerTimes.js:111-153 | prunes, advances the reference and moves the viewed day only if it was the reference |
| ClientCalendar.PrayerTimesHook.SettleChunk | client/src/hooks/usePrayerTimes.js:300-388 | merges a chunk, sets or clears the boundary, counts the request down and goes ahead only for the latest navigation |
| ClientCalendar.PrayerTimesHook.NavigateDay | client/src/hooks/usePrayerTimes.js:353-381 | counts the navigation, then transitions, stops at a boundary, or asks for a chunk at the edge |
| ClientCalendar.PrayerTimesHook.SyncViewedDateToReference | client/src/hooks/usePrayerTimes.js:417-430 | cancels the timer, clears the guard and shows the reference day |
| ClientCalendar.HookSafe | client/src/hooks/usePrayerTimes.js:97-109 | in every run the guard ref is true exactly while one commit timer is armed, the pending count is the number of outstanding requests and at most one chunk request is not aborted |
| ClientCalendar.ReferenceNeverBackwards | client/src/hooks/usePrayerTimes.js:125-127 | initialReferenceDate never moves backwards, over every run from any state |
| ClientCalendar.NavigationGoesAheadIff | client/src/hooks/usePrayerTimes.js:353-388 | over every run from a navigation that asked for a chunk to its reply, a transition to its target starts if and only if the reply brings it, nothing counted a navigation in between and the view is still at the origin |
| ClientCalendar.SupersededNeverStarts | client/src/hooks/usePrayerTimes.js:359-388 | once a later navigation, reset or sync counted, a chunk request never starts a transition in any run |
| ClientCalendar.DisplayPartsIff | client/src/hooks/usePrayerTimes.js:460-474 | isTransitioning and its guard part if and only if a later reference date arrives during a transition |
| ClientCalendar.DisplayHonestIff | client/src/hooks/usePrayerTimes.js:460-474 | over a whole run display and guard agree throughout if and only if no later reference date ever arrives during a transition |
| ClientCalendar.DisplayStuck | client/src/hooks/usePrayerTimes.js:467-473 | once parted, the display stays in transition until a sync, navigation, reset or chunk reply |
| ClientCalendar.MidnightLosesView | client/src/hooks/usePrayerTimes.js:111-153 | a viewed day kept at midnight meets a fetch if and only if midnight advances the reference date, and the reply replaces the day if and only if its payload is not stale and names another day |
| ClientCalendar.MidnightReplyIff | client/src/hooks/usePrayerTimes.js:234-245 | over runs: whatever happens before the reply to the fetch a midnight starts, it replaces the day then on view if and only if its payload is not stale by then and names another |
| ClientCalendar.PagesFollow | client/src/hooks/usePrayerTimes.js:280-399 | the hook changes its calendar exactly as ClientPages describes, and its chunk requests start at the edge |
| ClientNavigation.NavigateIgnored | client/src/hooks/usePrayerTimes.js:355-357 | a click with nothing in view, in no direction or during a transition changes nothing |
| ClientNavigation.NavigateToCachedDay | client/src/hooks/usePrayerTimes.js:359-370 | a click towards a day the calendar has arms exactly one timer for the day on view plus delta, shows that day as the one to come and requests nothing |
| ClientNavigation.NavigateAtBoundary | client/src/hooks/usePrayerTimes.js:372-379 | towards a day it lacks, at a boundary or with an empty calendar, a click only counts |
| ClientNavigation.NavigateBeyondCalendar | client/src/hooks/usePrayerTimes.js:376-381 | towards any other day it lacks, a click starts no transition and requests one chunk beyond the farthest day of that direction |
| ClientNavigation.TimerTakesView | client/src/hooks/usePrayerTimes.js:173-179 | when a timer goes off its day is on view and the transition over |
| ClientNavigation.TimerKeepsDay | client/src/hooks/usePrayerTimes.js:162-180 | in every run an armed timer keeps its day |
| ClientNavigation.ClickMovesByDelta | client/src/hooks/usePrayerTimes.js:353-370 | whatever happens after a click towards a day the calendar has, if its timer goes off the view moves to the day then on view plus delta |
| ClientNavigation.ResetSays | client/src/hooks/usePrayerTimes.js:401-415 | a reset starts the transition to the reference day, or changes nothing when that is on view or a transition is under way |
| ClientNavigation.SyncSays | client/src/hooks/usePrayerTimes.js:417-430 | a sync shows the reference day at once, ends any transition and overtakes every navigation |
| ClientNavigation.ReplySays | client/src/hooks/usePrayerTimes.js:182-248 | a default page adds its days, the later of its date and the known one becomes the reference, and the view goes there unless it is to be kept or the page is stale |
| ClientNavigation.FailedReplySays | client/src/hooks/usePrayerTimes.js:250-278 | a failed request changes nothing but the count of requests |
| ClientNavigation.ChunkSays | client/src/hooks/usePrayerTimes.js:280-339 | a chunk adds its days and sets the boundary of its direction exactly when it has fewer than seven, a failed one neither |
| ClientNavigation.ChunkGoesAhead | client/src/hooks/usePrayerTimes.js:381-389 | its navigation goes ahead exactly when the target came, nothing was clicked since, the origin is still on view and no transition is under way |
| ClientNavigation.IntervalSays | client/src/hooks/usePrayerTimes.js:463-465 | the interval asks for the default page with the view kept |
| ClientNavigation.ReferenceMoves | client/src/hooks/usePrayerTimes.js:460-474 | a step that moves the hook's own reference date ends any transition's timer, aborts every chunk and asks for the default page for a view that follows it |
| ClientNavigation.FetchNeedsCause | client/src/hooks/usePrayerTimes.js:460-474 | nothing else asks for it |
| ClientNavigation.MidnightSays | client/src/hooks/usePrayerTimes.js:121-153 | midnight keeps the days near the new one, makes it the reference, and takes a view along that was on the old reference or nowhere |
| ClientNavigation.IdleSays | client/src/hooks/usePrayerTimes.js:484-503 | a day on view other than the reference is given up for it after the idle time, and for that of the commit that armed it |
| ConfigMerge.Merge | src/config/ConfigService.js:510-540 | the loop over the source's keys computes the deep merge, in whatever order the keys come |
| ConfigMerge.MergeMeetsSpec | src/config/ConfigService.js:510-540 | at every path the source's leaf or array wins where it has one, a replaced value hides what was below it, otherwise the target's value stays |
| ConfigMerge.KindsDetermine | src/config/ConfigService.js:510-540 | two trees with the same kinds at all paths are equal, so that specification fixes the merge |
| ConfigMerge.MergeTwice | src/config/ConfigService.js:370-384 | merging the same source twice equals merging it once |
| ConfigMerge.MergeAssociates | src/config/ConfigService.js:370-384 | merge(default, merge(local, partial)) equals merge(merge(default, local), partial) if and only if no value of the first lies where the other two forget a replacement |
| ConfigMerge.MergeAssociatesOnAgreeingKinds | src/config/ConfigService.js:370-384 | the two orders agree on triples whose kinds agree at each path |
| ConfigMerge.MergeOrderMatters | src/config/ConfigService.js:510-540 | object, null, object under one key: the two orders differ |
| ConfigSecrets.ConfigObject.ProcessSensitiveFields | src/config/ConfigService.js:676-775 | the loops encrypt or decrypt exactly the declared secret positions |
| ConfigSecrets.ConfigObject.MaskSecrets | src/controllers/settingsController.js:56-102 | the loops mask exactly the declared secret positions that hold something |
| ConfigSecrets.ConfigObject.UnmaskSecrets | src/utils/configUnmasker.js:46-87 | the loops restore or delete exactly the masked secret positions |
| ConfigSecrets.DecryptAfterEncrypt | src/config/ConfigService.js:676-775 | decrypting after encrypting equals decrypting, for every mix of plain, encrypted, masked and colon-bearing values |
| ConfigPositions.SecretPositions | src/config/ConfigService.js:676-775 | the secret positions are those of the declared output secrets and of the sensitive parameters of the two sources |
| ConfigPositions.EncryptSays | src/config/ConfigService.js:676-775 | saving encrypts each secret that is a non-empty text neither encrypted nor masked, and changes nothing else |
| ConfigPositions.EncryptHides | src/config/ConfigService.js:676-775 | under an authenticated cipher no plain secret is stored readable, and each can be read back |
| ConfigPositions.DecryptSays | src/config/ConfigService.js:676-775 | loading decrypts each secret that can be decrypted and changes nothing else |
| ConfigSecrets.EncryptTwice | src/config/ConfigService.js:676-775 | encrypting twice, with any IVs, equals encrypting once |
| ConfigSecrets.MaskHides | src/controllers/settingsController.js:56-102 | after masking every secret position is masked or falsy and everything else is unchanged |
| ConfigSecrets.UnmaskAfterMask | src/utils/configUnmasker.js:13-87 | posting back the masked configuration restores the original |
| ConfigSecrets.UnmaskOnlyMasked | src/utils/configUnmasker.js:13-43 | unmasking changes only masked secret positions, to the current value or to nothing |
| ConfigOverrides.StripManagedInvisible | src/config/ConfigService.js:548-652 | removing environment-managed URLs and output secrets before saving never changes the effective configuration |
| ConfigOverrides.StripInvisibleIff | src/config/ConfigService.js:604-652 | over defaults without provider secrets, removing those too is invisible if and only if the environment supplies each one the saved layer held |
| ConfigOverrides.StripInvisibleWithoutSecrets | src/config/ConfigService.js:604-652 | with providers that declare no sensitive parameter, as those registered do, all of the stripping is invisible |
| ConfigOverrides.DeclaredSecretLost | src/config/ConfigService.js:634-651 | one sensitive parameter that a provider declared and no variable holds would be lost by saving |
| ConfigPositions.OverrideSays | src/config/ConfigService.js:548-596 | where there is an automation section, each position the environment manages or supplies gets its value |
| ConfigPositions.OverrideSparesRest | src/config/ConfigService.js:548-596 | every other position stays as it is, and so does a tree without an automation section |
| ConfigPositions.StripSays | src/config/ConfigService.js:604-653 | stripping removes the values the environment manages and every secret of the two sources, and nothing else |
| ConfigLeads.ClampThenAcceptedIff | src/config/ConfigService.js:248-297 | clamping then the schema's bounds accept the leads of a tree if and only if registered outputs have a number or none and the others a number in range or none |
| ConfigLeads.LeadOfClamped | src/config/ConfigService.js:248-297 | clamping brings every registered output's numeric lead into range and moves no other lead |
| ConfigLoad.LoadAcceptsLeadsIff | src/config/schemas.js:59-69 | when the other validators pass, reload accepts a tree under that same condition on its effective leads: it never rejects a registered output's lead and always an unregistered one out of range |
| ConfigLoad.HeldLead | src/config/ConfigService.js:212-241 | the held lead of each output is the clamp of the effective one, zero where there was none, always in range, and no output appears or goes |
| ConfigLoad.ValidatorsPartIff | src/config/ConfigService.js:378-407 | update accepts nothing a load of the same tree would reject, and rejects what a load would accept if and only if some registered output has a number out of range, all other leads being in range or missing |
| ConfigLoad.StoredLeadsInRange | src/config/ConfigService.js:370-412 | what an accepted update writes to the file has no lead out of range |
| MigratedSecrets.MigrateEdited | src/services/system/migrationService.js:43-64 | for every version, migrating a tree after an edit of its secret fields is the migrated tree after an edit of some of them |
| ConfigLoad.LoadIgnoresEncryption | src/config/ConfigService.js:145-241 | whatever the version of the candidate, migrated on the way or not, loading it encrypted gives what loading it plain gives |
| ConfigLoad.ValidationIgnoresStrippingIff | src/config/ConfigService.js:370-407 | StripInvisibleIff for update: it validates the same tree if and only if a consulted variable supplies each provider secret removed, and then its verdict is that on the unstripped candidate |
| ConfigLoad.VerdictIgnoresStripping | src/config/ConfigService.js:370-407 | with providers that declare no secret the verdict on a candidate never depends on the stripping |
| ConfigStore.LoadAloneIsLoad | src/config/ConfigService.js:145-241 | the segments of a reload that nobody interleaves with make up the load, with both saves it may attempt |
| ConfigReload.HeldSays | src/config/ConfigService.js:189-241 | a load that succeeds holds what the environment manages, and elsewhere, apart from sources and leads, what merge, decryption and migration came to |
| ConfigReload.HeldSourceSays | src/config/ConfigService.js:470-500 | in a source of a named type it holds the environment's value of a sensitive parameter, and else exactly the fields a registered type knows |
| ConfigReload.MovedSays | src/config/ConfigService.js:191-211 | when secrets move out of the environment the tree they moved into is in force and in the file |
| ConfigReload.MigrationDueIff | src/config/ConfigService.js:156-170 | a file is upgraded if and only if its version is missing, falsy or 1 to 4 |
| ConfigReload.LoadSays | src/config/ConfigService.js:145-241 | apart from sources, secrets, leads, migration and environment it holds each value of the file and the default where the file says nothing, and the defaults alone for a file that is missing, blank, not JSON or due for an upgrade that cannot be saved |
| ConfigStore.ConfigService.Update | src/config/ConfigService.js:341-419 | an update nobody interleaves with, whatever tasks are waiting, commits and loads the new file or leaves file and configuration as they were, and always lowers the saving flag; after a commit all that was sent, apart from what the environment, migration and cleaning decide, is in the file, and in force once it returns |
| ConfigUpdates.CandidateSays | src/config/ConfigService.js:356-376 | path by path, apart from sources and what the environment manages, the candidate has what was sent where something was sent, nothing where that hides it, and elsewhere what the file has, which is nothing for one that is missing, blank or not JSON |
| ConfigUpdates.SourceFieldSays | src/config/ConfigService.js:370-376 | in a source of a registered type it keeps exactly the fields the type knows, but for its secrets, each with its merged value |
| ConfigUpdates.SentIsStoredAndLoaded | src/config/ConfigService.js:356-412 | a value sent there is the one in the stored file, in the upgraded file and in what the load merges and prepares |
| ConfigUpdates.SentHeldAfterLoad | src/config/ConfigService.js:404-412 | after the update has loaded its file everything sent there is in the file, upgraded on the way or not |
| ConfigReload.SentInForceAfterLoad | src/config/ConfigService.js:404-412 | and in the configuration in force, if the load succeeds and the file needs no upgrade that cannot be saved |
| ConfigStore.OneUpdateAtATime | src/config/ConfigService.js:341-419 | over every interleaving of the segments of updates and reloads at most one update is under way, and a call is refused, changing nothing, exactly while one is |
| ConfigStore.OnlyValidatedSaved | src/config/ConfigService.js:376-409 | in every interleaving an update saves nothing but the encrypted form of a candidate that passed validation |
| ConfigStore.SecretsNeverStored | src/config/ConfigService.js:305-333 | in every interleaving of updates and loads a file the service has written holds at each secret position no text, a mask or a text with a colon, which under an authenticated cipher is what encryption leaves |
| ConfigStore.HeldConfigIsValid | src/config/ConfigService.js:145-241 | over every such interleaving, whatever fails, the held configuration has every output's lead in range |
| ConfigStore.NothingBeforeRename | src/config/ConfigService.js:341-419 | over every interleaving an update that never renames changes neither file nor configuration by a segment of its own: they end as what the other tasks renamed and loaded last |
| ConfigStore.StoredThoughThrownIff | src/config/ConfigService.js:305-333 | over every interleaving the tree of an update that renames nothing itself, and then throws, is stored if and only if the first segment to touch the temporary file after its write, or after another's write of an equal tree, is a rename |
| ConfigStore.ThrownYetStored | src/config/ConfigService.js:305-333 | a load at its rename takes the update's temporary file: the update throws with its tree in local.json |
| ConfigStore.SaveStoresOwnIff | src/config/ConfigService.js:305-333 | whatever others do between a save's write and its rename, the rename succeeds if and only if the last of them to touch the temporary file did not remove it, and stores its own tree if and only if none touched it or the last wrote the same |
| ConfigStore.UpgradeFallsBackIff | src/config/ConfigService.js:156-183 | a load that upgrades the file goes on with the defaults alone if and only if another save removed the temporary file last |
| ConfigCommits.HeldIsLoadIff | src/config/ConfigService.js:145-241 | after an update's rename, with only loads under way, every order of going on ends with the load of the new file held if and only if no load in flight has a layer that loads to something else, and the new file needs no migration or falling back on the defaults does no harm |
| ConfigCommits.UpgradeRace | src/config/ConfigService.js:156-183 | a reload that begins right after the rename of a file that needs a migration races the update for it, and the loser goes on with the defaults alone |
| ConfigCommits.CommitKeptIff | src/config/ConfigService.js:145-241 | what an update stored stays, up to the migration it may need, in every order of going on, if and only if no task under way is about to save anything else |
| Migration.MigrationRun.MigrateConfig | src/services/system/migrationService.js:43-64 | the chain of version tests runs the steps that apply |
| Migration.MigrationRun.MigrateV1toV2 | src/services/system/migrationService.js:145-177 | moves the legacy voice settings into an output block |
| Migration.MigrationRun.MigrateV2toV3 | src/services/system/migrationService.js:184-205 | moves the global calculation into an aladhan primary and drops it |
| Migration.MigrateReachesFive | src/services/system/migrationService.js:43-64 | every version absent or 0 to 5 reaches 5, any other configuration is left alone |
| Migration.MigrateTwice | src/services/system/migrationService.js:43-64 | migrating is idempotent on all inputs |
| Migration.MigrateSpares | src/services/system/migrationService.js:145-250 | every position no step names keeps its value |
| Migration.LegacyVoiceConserved | src/services/system/migrationService.js:145-177 | the legacy token and device arrive in the new block, which is on exactly when the old one was and has no lead, and the old one goes |
| Migration.VoiceStays | src/services/system/migrationService.js:145-177 | without a legacy block, or from version 2 on, an output block that is there stays |
| Migration.OutputsSay | src/services/system/migrationService.js:145-156 | below version 2 a missing section of outputs is made |
| Migration.CalculationConserved | src/services/system/migrationService.js:184-205 | for an aladhan primary each calculation field arrives in the source |
| Migration.CalculationOfOthers | src/services/system/migrationService.js:184-205 | otherwise nothing in the sources changes, and the global block goes exactly when the version is below 3 and there is a primary |
| Migration.HealthSays | src/services/system/migrationService.js:212-230 | up to version 3 health checks that are set stay and missing ones come on for both |
| Migration.TokenSays | src/services/system/migrationService.js:238-250 | up to version 4 a token version that is there stays and a missing one becomes 1 |
| ConfigLoad.SecondMigrationIsIdentity | src/config/ConfigService.js:164-189 | once the local file was migrated, reload's second migration, after merge and decryption, is the identity |
| Calculations.CalculateIqamah | src/utils/calculations.js:10-53 | the conditional steps compute the fixed or rounded time, or throw |
| Calculations.IqamahSays | src/utils/calculations.js:10-53 | a usable fixed time is that hour and minute of the start's own local day, whatever offset and step are, and the dynamic rule applies exactly when there is none |
| Calculations.IqamahThrowsIff | src/utils/calculations.js:10-31 | it throws exactly for a start that cannot be read, without a zone, or on an unusable fixed time |
| Calculations.FixedTimeHolds | src/utils/calculations.js:22-30 | the fixed time lies on a whole minute of the same local day |
| Calculations.IqamahBounds | src/utils/calculations.js:33-52 | the result is at or after the floored minute and less than one step later, for every positive step |
| Calculations.IqamahMonotoneIff | src/utils/calculations.js:33-52 | a later start never gives an earlier iqamah if and only if the step fits the hour or is not positive |
| Calculations.IqamahLeastIff | src/utils/calculations.js:33-52 | the result is the least aligned minute for every start if and only if the step fits the hour |
| Calculations.RoundTwiceIff | src/utils/calculations.js:33-52 | rounding is idempotent if and only if the step fits the hour, is whole hours, or is not positive |
| Calculations.CalculateNextPrayer | src/utils/calculations.js:61-78 | the search returns the first entry whose start is later than now |
| IqamahRule.ApplyOverrides | src/services/core/prayerTimeService.js:343-368 | the loop writes an iqamah exactly for overridden prayers whose calculation succeeds |
| IqamahRule.BuildPrayerRows | src/services/core/prayerTimeService.js:377-406 | a row for each prayer with a start, its iqamah chosen by the dashboard's rule, or a throw |
| IqamahRule.RowFromRaw | src/services/core/prayerTimeService.js:377-406 | the row of a prayer on a day a provider brought has its start and the iqamah of the override, else of the source |
| IqamahRule.ServedDay | src/services/core/prayerTimeService.js:343-368 | the day served has the brought starts, and the brought iqamah except where an override calculates one |
| IqamahRule.ApplyTwice | src/services/core/prayerTimeService.js:343-368 | applying overrides twice equals applying them once |
| IqamahRule.ThreeCopiesAgree | src/services/system/diagnosticsService.js:46-61 | scheduler and diagnostics always agree, and the dashboard too if and only if no override fails where the source gave a time |
| IqamahRule.AgreedInstant | src/services/core/schedulerService.js:375-402 | when the calculation succeeds all three show one instant, and which one |
| IqamahRule.PickedFromRaw | src/services/core/schedulerService.js:375-402 | what the scheduler picks of a day a provider brought, by override, source and their failures |
| SourcePaths.WithinRootIff | src/utils/pathUtils.js:9-21 | accepts exactly targets under the root by segment prefix, except a first segment that begins with two dots |
| SourcePaths.NormalizeTwice | src/utils/normalizeSource.js:121-123 | normalising an absolute path keeps its segments and is idempotent |
| SourcePaths.FilesUnderRoot | src/utils/normalizeSource.js:105-142 | every file result lies under the audio root by segment prefix |
| SourcePaths.UrlsAreHttp | src/utils/normalizeSource.js:45-68 | every url result is the given url and is http or https |
| SourcePaths.NormalizeSourceTwice | src/utils/normalizeSource.js:23-75 | normalizeSource is idempotent on every input it accepts |
| SourcePaths.PathAndUrlAgree | src/utils/normalizeSource.js:105-129 | a path-only source and the url made for it normalise to the same source |
| SourcePaths.MixedNamesIff | src/utils/normalizeSource.js:105-129 | with both a path and a file path, the url names the file if and only if the two agree |
| AudioAssets.NamesDistinct | src/services/system/audioAssetService.js:302-306 | distinct triggers never share a file |
| AudioAssets.AudioAssetService.EnsureTTSFile | src/services/system/audioAssetService.js:294-381 | keeps and touches, declines, or generates, with the files and warning of each branch, as an uninterrupted call |
| AudioAssets.AudioAssetService.CollectTasks | src/services/system/audioAssetService.js:416-427 | one task for each enabled TTS trigger with a template |
| AudioAssets.AudioAssetService.CleanupCache | src/services/system/audioAssetService.js:151-179 | deletes exactly the files older than thirty days, with their sidecars |
| AudioAssets.AudioAssetService.SyncAudioAssets | src/services/system/audioAssetService.js:389-455 | every eligible task runs, a warning exactly for those that fail, then the cleanup, with nothing else at work on the cache |
| AudioAssets.TasksIndependent | src/services/system/audioAssetService.js:429-435 | each task leaves its own file as if it ran alone, and no task touches another's |
| AudioAssets.OrderIrrelevant | src/services/system/audioAssetService.js:429-435 | the order of the tasks makes no difference to any file |
| AudioAssets.WarningSays | src/services/system/audioAssetService.js:328-381 | a task warns of the first of three obstacles it meets, the service, the quota, the generation, and of none when it keeps or makes the file |
| AudioAssets.SyncMeets | src/services/system/audioAssetService.js:389-455 | after a sync an eligible trigger without a warning has a file and sidecar with the current text and voice, survives the cleanup and is reported generated; and exactly when else it has them |
| AudioAssets.SyncSays | src/services/system/audioAssetService.js:294-455 | a sync that nothing overlaps keeps and touches a file recorded with the trigger's resolved template in its own, the default or the built-in voice, speaks and records any other anew if service and quota allow, leaves a late failure unrecorded, and otherwise leaves the file to the cleanup |
| AudioAssets.SyncLeaves | src/services/system/audioAssetService.js:151-179 | every other file goes with its sidecar exactly when untouched for thirty days, or all of them on a forced clean |
| AudioAssets.EnsuredTruthfulIff | src/services/system/audioAssetService.js:353-381 | a task that nothing overlaps leaves a file that says what its sidecar records so if and only if it does not fail after writing beside a sidecar of another speech |
| AudioAssets.SyncTruthfulIff | src/services/system/audioAssetService.js:389-455 | the same for all files over a sync with its cleanup that nothing overlaps |
| AudioRuns.EnsuredAlone | src/services/system/audioAssetService.js:294-381 | the segments of ensureTTSFile, cut at its awaits, make up the uninterrupted call |
| AudioRuns.SweptAlone | src/services/system/audioAssetService.js:151-179 | the cleanup's two deletions for a file make up its sweep |
| AudioRuns.SoundThroughoutIff | src/services/system/audioAssetService.js:117-179 | over every interleaving of tasks, sidecar rewrites and deletions each file says what its sidecar records, or a task is on its way to record what it says, if and only if no segment writes a sidecar over, or fails late beside, a file that says otherwise and that no other task will record |
| AudioRuns.QuietFilesSpeak | src/services/system/audioAssetService.js:389-455 | so once no task is between audio and sidecar of a file, a file whose sidecar records the wanted speech says it |
| AudioRuns.OrderlyIsSound | src/services/system/audioAssetService.js:353-367 | none does if no other task for the file writes another speech between a task's audio and its sidecar, no generation fails after writing and no rewrite puts back a sidecar that has changed |
| AudioRuns.NestedTasksMislead | src/services/system/audioAssetService.js:353-367 | two tasks for one file, neither failing, with one's two writes inside the other's leave it saying the one speech and recording the other |
| AudioAssets.GetTTSStatus | src/services/system/diagnosticsService.js:128-216 | the loops report the status of every trigger, sunrise without iqamah |
| AudioAssets.StatusSays | src/services/system/diagnosticsService.js:153-205 | the status of a speech trigger by its file, its sidecar and the text |
| AudioAssets.OtherStatusSays | src/services/system/diagnosticsService.js:146-162 | the status of every other trigger by its switch and type |
| AudioAssets.KeptIsGenerated | src/services/system/diagnosticsService.js:162-195 | what a sync would keep is reported generated, and conversely if and only if the voice matches too |
| AudioAssets.InterruptedGenerationMisleads | src/services/system/audioAssetService.js:353-381 | once a task has failed in that way, returning to the recorded speech keeps the file without a warning although it says something else |
| EnvFile.EnvManager.GetEnv | src/utils/envManager.js:13-31 | the loop over the lines computes the last value of each key |
| EnvFile.TrimSays | src/utils/envManager.js:13-31 | trimming takes away exactly the blanks at both ends |
| EnvFile.BlankSays | src/utils/envManager.js:13-31 | what trimming takes are ECMAScript's white space and line terminators |
| EnvFile.EntrySays | src/utils/envManager.js:16-28 | which line assigns what to which key |
| EnvFile.ParseSays | src/utils/envManager.js:13-31 | a key has a value exactly when the last line that assigns to it assigns that value |
| EnvFile.ParseSaysNot | src/utils/envManager.js:13-31 | a key has none exactly when no line assigns to it |
| EnvFile.EnvManager.SetEnvValue | src/utils/envManager.js:40-72 | replaces every line of the key or appends one, in the file and in the process |
| EnvFile.EnvManager.DeleteEnvValue | src/utils/envManager.js:80-95 | removes every line of the key, touching file and process only if there was one |
| EnvFile.SetParsesIff | src/utils/envManager.js:50-66 | setting a key maps it and changes nothing else if and only if no line with a blank before its equals sign shadows it |
| EnvFile.DeleteParsesIff | src/utils/envManager.js:84-90 | deleting a key spares every other, and removes it if and only if it has no such line |
| EnvEdits.SetIff | src/utils/envManager.js:40-72 | the same for any file, split, joined and split again: exactly when each line that loses a hidden carriage return has the wanted value or is not its key's last mention, and no line shadows the key |
| EnvEdits.DeleteIff | src/utils/envManager.js:80-95 | the same for deletion, which leaves a file without the key alone |
| EnvEdits.ReturnRevives | src/utils/envManager.js:46-68 | an assignment that a carriage return at the end of the file hides holds as soon as another key is appended |
| EnvEdits.SetsCommute | src/utils/envManager.js:40-72 | sets of different keys commute as the parse sees them, and line by line if the file mentions one of the two |
| EnvEdits.DeleteAfterSet | src/utils/envManager.js:40-95 | deleting a key after setting it gives the parse without that key if and only if no line of it has a blank before its equals sign |
| EnvEdits.InTurnRemovesAll | src/utils/envManager.js:80-95 | deleting keys one after another removes exactly those if and only if none has such a line |
| EnvDeletions.ChainOfDeletions | src/config/ConfigService.js:207-210 | whatever the interleaving of deletions, the file is that of one chain of them in turn, a write making it the chain its read saw and its own key |
| EnvDeletions.AllGoneIff | src/config/ConfigService.js:207-210 | on any file all their keys are gone in the end if and only if no key it mentions is read while another is between its read and its write |
| EnvDeletions.ChainParses | src/config/ConfigService.js:207-210 | on files without stray lines or carriage returns the parse loses exactly the keys of that chain |
| EnvDeletions.OverlapRemovesOne | src/config/ConfigService.js:207-210 | in particular deletions that all read before any writes leave, on any file, what deleting the last key it mentions alone leaves |
| EnvDeletions.OverlapLosesOne | src/config/ConfigService.js:207-210 | of two keys in any file, two deletions that both read first leave the first |

## Left out

- HTTP routes, middleware, rate limits, sessions and passwords: plumbing around the modelled services.
- Provider requests, provider validation and migrateEnvSecrets: parameters with any outcome.
- The zod schema beyond what it demands of `automation.outputs`: a parameter with any outcome.
- Encryption: a cipher of which only inverse and colon-bearing ciphertext are assumed, as a hypothesis.
- Time zones and daylight saving: one fixed offset; `calculateIqamah` with fractional offsets or steps is not modelled.
- The text of `fixedTime`: it is given as empty, unusable or an hour and a minute.
- A merge in which an object meets an array: the source hangs named properties on the array, here the array stays.
- Configurations whose sections are truthy but not objects, on which the source throws in migration and overrides.
- The audioPlayer allow-list and other cleaning that only drops unknown source fields by name.
- node-schedule: a job for a moment not in the past is accepted and fires at that moment; recurring jobs only appear as armed.
- Stale-data and year-boundary maintenance: they call an asynchronous readCache without awaiting it.
- `meta.source` of cached days: the cache has one label for all of them.
- AsyncLock re-entered under the same key from the synchronous prefix of its own function.
- Writes that fail half-way: a write or unlink succeeds or fails as a whole.
- React's batching: a callback's updates are committed before the next callback runs; unmounting is not modelled.
- The hook's error, loading, meta, prayers and next-prayer state, which decide nothing that is modelled.
- resolveTemplate: any function of template, prayer and offset; the warning texts of a sync are only counted per trigger.
- A TTS service that reports success without writing its file, and failures of touching or listing cache files.
- Paths on systems whose separator is not a slash, and query strings in urls.
- The remaining parts of the repository: SSE, logs, health checks, file lists, storage limits, the user interface.
- SetsCommute: states it for files without stray carriage returns; elsewhere the order decides how many of them a last line loses.
- DeleteAfterSet: states it for files without stray carriage returns; `SetIff` and `DeleteIff` say what each edit alone does elsewhere.
- InTurnRemovesAll: states it for files without stray carriage returns, like DeleteAfterSet.
- HeldIsLoadIff: is about an environment without secrets to move, and about states in which no other task is saving yet.
- CommitKeptIff: is about an environment without secrets to move.
- SentHeldAfterLoad: is about an environment without secrets to move; so are LoadSays and SentInForceAfterLoad, beside which MovedSays speaks of the others.
- LoadSays: is about values the schema takes over as it finds them; so are HeldSays, HeldSourceSays, MovedSays and SentInForceAfterLoad.
- ChainParses: states it for files without stray carriage returns or stray lines; AllGoneIff is about any file.
- MigrateV2toV3: the source assigns `undefined` to fields that are missing, which then hides a default in the merge of the same load; here the default shows. The same for missing fields of MigrateV1toV2's output block.
- Legacy sidecars beside the audio file, which a rewrite may take text and voice from.
- A chunk request aborted after its body was read, which can still succeed: here an aborted one only fails.
- dotenv's re-reading of the environment at each load: one environment throughout.
