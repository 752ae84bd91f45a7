# Anchor watch: supervisory state and touch editing, in Dafny

This project models the decision logic of an Android anchor-alarm app.
Its geometry engine, `AnchorWatch` / `SafeSector`, is a library whose
source is not part of this model. The model covers two parts.

- **`AnchorWatchService`**, the foreground service that supervises the
  anchored boat. The model covers these parts of it:
  - the fix-acceptance gate;
  - the accuracy watchdog, a single nullable `TimerTask`;
  - the drift-alarm latch `alarmMuted` and the binder's resume task,
    which is the only thing that clears the latch;
  - the single wake lock;
  - the adaptive GPS interval (`suggestNextUpdateIn`);
  - the unit conversions in the setting setters;
  - the `stopping` flag, which decides on destroy whether the backup is
    deleted or written.
- **`AnchorView`**, the touch handler. It keeps a `HashMap` from pointer id
  to the `Cursor` that pointer drags on the safe sector. The watcher
  callbacks store the latest geometry snapshots in the view.

Files:

- `wrappers.dfy`: `Option`, which stands for a nullable reference.
- `java_int.dfy`: Java `int` multiplication with 32-bit wrap-around.
- `sampling.dfy`: the interval clamp and the re-registration rule. These
  are pure functions.
- `watch_service.dfy`: the classes `AnchorWatchService` and
  `AnchorWatchBinder`, plus the fix-forwarding function.
- `cursor_table.dfy`: the functions that specify the cursor table, the
  lemmas about them, and the class `AnchorView`.
- `scenarios.dfy`: client methods that drive the classes through call
  sequences. Their results are proved from the class contracts alone.

How things are represented:

- **Platform effects.** Location requests, media players, wake locks,
  audio focus and activity starts are recorded in counter and log fields,
  for example `requests`, `removals`, `updates`, `alarmStarts`,
  `surfaced`, `heldWakeLocks` and `livePlayers`.
- **The `java.util.Timer`.** Scheduling a task sets its field to
  `Scheduled(delay)`. The task body runs only in an explicit
  `FireAccuracyWatchdog` or `FireResumeAlarm` step. The watchdog task
  never clears its own field, so after it runs the field is `Ran`. A
  cancelled timer runs nothing.
- **The engine's interval hint.** It is a `double` of seconds in the
  source. The model represents it as `NaN | PosInf | NegInf |
  Finite(millis)`, where `millis` is the value `(long) (seconds * 1000)`
  that the source computes first. For finite hints, `seconds < 1.0` is
  modelled as `millis < 1000`.
- **The view.** Event coordinates and the touch radius are in model
  units. The geometry library's operations `getCursor` and `update` are
  function values, and each `ready` commit is logged.

Behaviour of the code that the model keeps as it is:

- **Re-registration rule.** The service re-registers on any decrease of
  the interval, or on an increase of more than 1000 ms. The rule is
  asymmetric: 500 ms shorter re-registers, 500 ms longer does not
  (`Sampling.ReregisterIsAsymmetric`).
- **Rejected fixes.** A rejected fix never re-arms a watchdog that is
  held. A watchdog that has run stays referenced, and so blocks re-arming
  until an accepted fix or an accuracy mute clears it.
- **Alarm latch.** The accuracy alarm has no latch. Muting the drift alarm
  leaves `alarmMuted` set; nothing but the resume task clears it.
- **Alarm players.** `alarm` and the watchdog task both call `startAlarm`,
  which does not release a player that is already referenced. The model's
  `Alarm` and `FireAccuracyWatchdog` do the same, so its service invariant
  `Valid` allows live players that no field refers to.

## Model

| member | source | states |
|---|---|---|
| `JavaInt.Mul32` | src/main/java/org/vesalainen/boatwatch/AnchorWatchService.java:254 | Java `int` product: exact when the product fits in 32 bits, and always congruent to it modulo 2^32 |
| `Sampling.RequestInterval` | src/main/java/org/vesalainen/boatwatch/AnchorWatchService.java:323-334 | NaN, -inf and hints under 1 s give 0; +inf and hints over the maximum give the maximum; a finite hint in [1000, max] is kept as is; for a maximum >= 0 the interval lies in [0, max] |
| `Sampling.ShouldReregister` | src/main/java/org/vesalainen/boatwatch/AnchorWatchService.java:335 | compared with a symmetric test: it re-registers whenever the new interval is more than 1000 ms from `lastSleep`, and the only other case it re-registers is a decrease of at most 1000 ms |
| `Sampling.RepeatedIntervalIsQuiet` | src/main/java/org/vesalainen/boatwatch/AnchorWatchService.java:335-337 | once `lastSleep` equals the computed interval, the same hint does not re-register again |
| `Sampling.ReregisterIsAsymmetric` | src/main/java/org/vesalainen/boatwatch/AnchorWatchService.java:335 | for every `lastSleep` and every 0 < d <= 1000, a decrease by d re-registers and an increase by d does not |
| `Sampling.RequestIntervalMonotone` | src/main/java/org/vesalainen/boatwatch/AnchorWatchService.java:323-334 | with a maximum >= 0, a longer hint (NaN and -inf lowest, +inf highest) never yields a shorter interval |
| `Sampling.NegativeMaximumGivesNegativeInterval` | src/main/java/org/vesalainen/boatwatch/AnchorWatchService.java:330-332 | with a negative maximum, +inf and long hints give a negative interval |
| `WatchService.Forwarded` | src/main/java/org/vesalainen/boatwatch/AnchorWatchService.java:170-189 | a fix is forwarded iff it has no accuracy or accuracy <= minAccuracy; the update carries the fix's position and time; the speed overload is used iff the fix has accuracy and speed; a fix without accuracy uses the position-only overload |
| `WatchService.SettingsConvertExactly` | src/main/java/org/vesalainen/boatwatch/AnchorWatchService.java:250-276 | the minute and second conversions are exact up to 35791 minutes and 2147483 seconds |
| `WatchService.LongMuteTimeWraps` | src/main/java/org/vesalainen/boatwatch/AnchorWatchService.java:261 | 35792 minutes of mute time wrap to a negative millisecond value |
| `WatchService.AnchorWatchService.constructor` | src/main/java/org/vesalainen/boatwatch/AnchorWatchService.java:87-109 | `onCreate` without the backup read and without `Settings.attach`: creation registers with the watch and holds exactly one partial wake lock and no player; no watchdog, no alarm latch, no location manager, every setting at its default and every effect count at zero |
| `WatchService.AnchorWatchService.ReleaseWakeLock` | src/main/java/org/vesalainen/boatwatch/AnchorWatchService.java:392-399 | afterwards no lock is referenced, and a held one has been released |
| `WatchService.AnchorWatchService.AcquireWakeLock` | src/main/java/org/vesalainen/boatwatch/AnchorWatchService.java:384-390 | the old lock is released before the new one is taken, so the count of held locks stays at one |
| `WatchService.AnchorWatchService.StartAlarm` | src/main/java/org/vesalainen/boatwatch/AnchorWatchService.java:345-372 | full wake lock, one audio-focus request, one alarm start; with a tone, exactly one live player (the corrected version) |
| `WatchService.AnchorWatchService.StartAlarmAsWritten` | src/main/java/org/vesalainen/boatwatch/AnchorWatchService.java:354-361 | with a tone, a new player is created and the live-player count grows even if a player was already referenced |
| `WatchService.AnchorWatchService.StopAlarm` | src/main/java/org/vesalainen/boatwatch/AnchorWatchService.java:374-382 | the referenced player is released and a partial wake lock replaces the current one |
| `WatchService.AnchorWatchService.Alarm` | src/main/java/org/vesalainen/boatwatch/AnchorWatchService.java:279-290 | if not latched: latch, one alarm start as written (with a tone one more live player) and one drift screen; if latched: no state change at all |
| `WatchService.AnchorWatchService.AlarmWithCorrectedStart` | src/main/java/org/vesalainen/boatwatch/AnchorWatchService.java:279-290 | the same with the corrected `startAlarm`: the referenced player stays the only live one |
| `WatchService.AnchorWatchService.StartAccuracyWatchDog` | src/main/java/org/vesalainen/boatwatch/AnchorWatchService.java:406-425 | schedules one watchdog with the accuracy-alarm delay only when none is held; otherwise no change |
| `WatchService.AnchorWatchService.StopAccuracyWatchDog` | src/main/java/org/vesalainen/boatwatch/AnchorWatchService.java:427-434 | idempotent: afterwards no watchdog is held |
| `WatchService.AnchorWatchService.FireAccuracyWatchdog` | src/main/java/org/vesalainen/boatwatch/AnchorWatchService.java:413-421 | a scheduled watchdog on a live timer runs: alarm started as written (with a tone one more live player), accuracy screen surfaced, field left non-null; otherwise nothing changes |
| `WatchService.AnchorWatchService.FireAccuracyWatchdogWithCorrectedStart` | src/main/java/org/vesalainen/boatwatch/AnchorWatchService.java:413-421 | the same with the corrected `startAlarm`: the referenced player stays the only live one |
| `WatchService.AnchorWatchService.OnLocationChanged` | src/main/java/org/vesalainen/boatwatch/AnchorWatchService.java:166-191 | after every fix a watchdog is held; an accepted fix is appended to the forwarded updates and re-arms the watchdog; a rejected one is dropped and leaves an existing watchdog untouched |
| `WatchService.AnchorWatchService.SuggestNextUpdateIn` | src/main/java/org/vesalainen/boatwatch/AnchorWatchService.java:317-343 | without a location manager nothing changes; otherwise one remove and one request at the clamped interval, with `lastSleep` set to it, iff the re-registration rule holds, and no change otherwise |
| `WatchService.AnchorWatchService.SetSimulate` | src/main/java/org/vesalainen/boatwatch/AnchorWatchService.java:207-241 | on: the location manager is dropped (with a removal and a watch reset if present) and a simulator started; off: a running simulator is stopped with a reset, updates are requested at `lastSleep` and 1 m, and a watchdog is held |
| `WatchService.AnchorWatchService.SetMinAccuracy` | src/main/java/org/vesalainen/boatwatch/AnchorWatchService.java:243-248 | stores the minimum accuracy |
| `WatchService.AnchorWatchService.SetAccuracyAlarmTime` | src/main/java/org/vesalainen/boatwatch/AnchorWatchService.java:250-255 | stores minutes times 60000 in `int` arithmetic |
| `WatchService.AnchorWatchService.SetMuteTime` | src/main/java/org/vesalainen/boatwatch/AnchorWatchService.java:257-262 | stores 60000 times minutes in `int` arithmetic |
| `WatchService.AnchorWatchService.SetAlarmTone` | src/main/java/org/vesalainen/boatwatch/AnchorWatchService.java:264-269 | stores the tone |
| `WatchService.AnchorWatchService.SetGPSMaxSleep` | src/main/java/org/vesalainen/boatwatch/AnchorWatchService.java:271-276 | stores seconds times 1000 in `int` arithmetic |
| `WatchService.AnchorWatchService.OnDestroyAsWritten` | src/main/java/org/vesalainen/boatwatch/AnchorWatchService.java:131-164 | as written: timer cancelled, watcher removed, the referenced player released (orphaned ones stay alive), location manager dropped, backup deleted iff stopping and written otherwise, and one partial wake lock still held |
| `WatchService.AnchorWatchService.OnDestroy` | src/main/java/org/vesalainen/boatwatch/AnchorWatchService.java:131-164 | the same, with no wake lock held afterwards (corrected) |
| `WatchService.AnchorWatchService.DetachAndPersist` | src/main/java/org/vesalainen/boatwatch/AnchorWatchService.java:140-162 | the location manager is removed, and the backup is deleted when stopping and written otherwise |
| `WatchService.AnchorWatchBinder.constructor` | src/main/java/org/vesalainen/boatwatch/AnchorWatchService.java:436-438 | the binder belongs to its service and starts with no resume task |
| `WatchService.AnchorWatchBinder.Stop` | src/main/java/org/vesalainen/boatwatch/AnchorWatchService.java:447-451 | sets `stopping` and asks the service to stop itself |
| `WatchService.AnchorWatchBinder.Mute` | src/main/java/org/vesalainen/boatwatch/AnchorWatchService.java:452-481 | every action stops the alarm sound and releases the referenced player only; the drift action cancels a pending resume task and leaves exactly one, newly scheduled with the mute delay; the accuracy action clears the watchdog; the latch is not cleared |
| `WatchService.AnchorWatchBinder.FireResumeAlarm` | src/main/java/org/vesalainen/boatwatch/AnchorWatchService.java:463-471 | a scheduled resume task on a live timer clears the latch and its own field; otherwise nothing changes |
| `CursorTable.MoveOne` | src/main/java/org/vesalainen/boatwatch/AnchorView.java:191-200 | one pointer of a move: a tracked entry becomes its dragged cursor, the key set and every other entry stay the same |
| `CursorTable.Moved` | src/main/java/org/vesalainen/boatwatch/AnchorView.java:187-202 | the table after the move loop over the event's pointers; a move never adds or removes a key |
| `CursorTable.AfterDown` | src/main/java/org/vesalainen/boatwatch/AnchorView.java:172-186 | a down commits nothing, adds at most the action pointer's key, and leaves every other entry as it was |
| `CursorTable.AfterUp` | src/main/java/org/vesalainen/boatwatch/AnchorView.java:203-229 | an up removes exactly the action pointer's key, leaves every other entry, and commits its cursor at the pointer's position once iff it was tracked |
| `CursorTable.Touched` | src/main/java/org/vesalainen/boatwatch/AnchorView.java:170-233 | one event commits at most one cursor, and only on an up; the keys grow at most by the action pointer's id; a move keeps them |
| `CursorTable.DownSetsOnlyItsPointer` | src/main/java/org/vesalainen/boatwatch/AnchorView.java:172-186 | down sets the action pointer's entry to the hit cursor iff there is a safe sector and it yields a cursor; otherwise the table is unchanged; other entries are untouched and nothing is committed |
| `CursorTable.UpRemovesOnlyItsPointer` | src/main/java/org/vesalainen/boatwatch/AnchorView.java:203-212 | up removes the action pointer's key only, commits its cursor once at the pointer's position if tracked, and is a no-op if untracked |
| `CursorTable.CancelRemovesOnlyItsPointer` | src/main/java/org/vesalainen/boatwatch/AnchorView.java:230-232 | cancel removes the action pointer's key only and commits nothing |
| `CursorTable.NonMoveChangesOneEntry` | src/main/java/org/vesalainen/boatwatch/AnchorView.java:170-233 | every event other than a move leaves all entries except the action pointer's untouched |
| `CursorTable.MovedIgnoresOthers` | src/main/java/org/vesalainen/boatwatch/AnchorView.java:187-202 | a move leaves entries of pointers it does not carry untouched |
| `CursorTable.MovedDragsTracked` | src/main/java/org/vesalainen/boatwatch/AnchorView.java:189-200 | with distinct ids, each tracked pointer's cursor becomes `update(old cursor, x, y)` at its position |
| `CursorTable.MoveEventFrame` | src/main/java/org/vesalainen/boatwatch/AnchorView.java:187-202 | the full effect of a move event: same keys, tracked pointers dragged, others untouched, nothing committed |
| `CursorTable.SecondDownOverwrites` | src/main/java/org/vesalainen/boatwatch/AnchorView.java:181 | a second hitting down on the same id replaces its cursor and adds no second entry |
| `CursorTable.AnchorView.constructor` | src/main/java/org/vesalainen/boatwatch/AnchorView.java:58-67 | a new view has no snapshots, last position (0, 0), an empty cursor table and no commits |
| `CursorTable.AnchorView.OnTouchEvent` | src/main/java/org/vesalainen/boatwatch/AnchorView.java:160-235 | the table and commit log change exactly as the event specification says, hit-testing against the current `safe`; every event returns true |
| `CursorTable.AnchorView.SafeSectorChanged` | src/main/java/org/vesalainen/boatwatch/AnchorView.java:286-292 | the stored safe-sector snapshot is replaced by the new one, null included |
| `CursorTable.AnchorView.AreaChanged` | src/main/java/org/vesalainen/boatwatch/AnchorView.java:263-269 | the stored area is replaced, null included |
| `CursorTable.AnchorView.EstimatedChanged` | src/main/java/org/vesalainen/boatwatch/AnchorView.java:278-284 | the stored estimated circle is replaced, null included |
| `CursorTable.AnchorView.LocationChanged` | src/main/java/org/vesalainen/boatwatch/AnchorView.java:254-261 | the last position is replaced |
| `Scenarios.RepeatedDriftAlarmSoundsOnce` | src/main/java/org/vesalainen/boatwatch/AnchorWatchService.java:279-290 | n >= 1 drift alarms within one mute window give exactly one alarm start and one drift screen |
| `Scenarios.MuteWindowThenResume` | src/main/java/org/vesalainen/boatwatch/AnchorWatchService.java:452-473 | an alarm during the mute window is ignored, and after the resume task runs the next alarm sounds |
| `Scenarios.SecondMuteReschedules` | src/main/java/org/vesalainen/boatwatch/AnchorWatchService.java:459-472 | the second mute cancels the first resume task: one pending task, scheduled twice and cancelled once in all |
| `Scenarios.RepeatedHintReregistersOnce` | src/main/java/org/vesalainen/boatwatch/AnchorWatchService.java:321-341 | with a location manager, a hint repeated n times re-registers at most once, and once iff n > 0 and the clamped interval leaves the band above 0 |
| `Scenarios.HintsIgnoredInSimulation` | src/main/java/org/vesalainen/boatwatch/AnchorWatchService.java:321 | in simulation mode any sequence of hints leaves `lastSleep` at 0 with no re-registration |
| `Scenarios.InaccurateFixesRaiseAccuracyAlarm` | src/main/java/org/vesalainen/boatwatch/AnchorWatchService.java:170-190 | after GPS is switched on, inaccurate fixes forward nothing and do not restart the one watchdog, which then surfaces the accuracy screen |
| `Scenarios.AccurateFixRestartsWatchdog` | src/main/java/org/vesalainen/boatwatch/AnchorWatchService.java:172-190 | an accurate fix after inaccurate ones is forwarded with its accuracy and re-arms the watchdog before it runs |
| `Scenarios.AlarmTwiceOrphansPlayer` | src/main/java/org/vesalainen/boatwatch/AnchorWatchService.java:357 | as written, with a tone and GPS on: a drift alarm, a watchdog run and a drift mute leave one live player that no field refers to |
| `Scenarios.AlarmTwiceThenMuteReleasesPlayer` | src/main/java/org/vesalainen/boatwatch/AnchorWatchService.java:345-382 | with the corrected start (`AlarmWithCorrectedStart`, `FireAccuracyWatchdogWithCorrectedStart`), the same drift alarm, watchdog run and mute leave no live player |
| `Scenarios.FreshServiceCounts` | src/main/java/org/vesalainen/boatwatch/AnchorWatchService.java:211-224 | from a fresh service, one drift alarm makes exactly one audio-focus request, and switching on simulation starts one simulator with no watch reset |
| `Scenarios.DestroyAsWrittenHoldsWakeLock` | src/main/java/org/vesalainen/boatwatch/AnchorWatchService.java:135-139 | as written, destroy after an alarm leaves one wake lock held |
| `Scenarios.DestroyReleasesWakeLock` | src/main/java/org/vesalainen/boatwatch/AnchorWatchService.java:135-139 | with the corrected destroy, no wake lock is held afterwards |
| `Scenarios.StopSelectsDelete` | src/main/java/org/vesalainen/boatwatch/AnchorWatchService.java:146-162 | destroy after the binder's stop deletes the backup; a plain destroy writes it |
| `Scenarios.DownUsesLatestSector` | src/main/java/org/vesalainen/boatwatch/AnchorView.java:174-181 | after two safe-sector callbacks, a down is tracked iff the latest sector yields a cursor |
| `Scenarios.DownIgnoredAfterNullSector` | src/main/java/org/vesalainen/boatwatch/AnchorView.java:174 | after a null safe sector, a down tracks nothing and commits nothing |
| `Scenarios.ReleaseOneOfTwoPointers` | src/main/java/org/vesalainen/boatwatch/AnchorView.java:203-212 | with two grabbed cursors, releasing the first commits exactly its cursor and leaves the second tracked |

## Left out

- Reading the backup in `onCreate` and serializing it in `onDestroy`: file I/O in a foreign format. Only the choice between delete and write is modelled.
- The notification, `startForeground`, `onBind`, `onStartCommand`, and the empty location-provider and watcher callbacks of the service: platform glue with no decisions.
- The binder's `addWatcher` and `removeWatcher`: they only delegate to the geometry library's watcher registry, which is not part of this model.
- `AnchorageSimulator` and the geometry engine (`AnchorWatch.update`, `reset`, `getCursor`, `Cursor.update`, `ready`): foreign code. They appear only as logged calls or function values. Calling `setSimulate(true)` twice starts a second simulator without cancelling the first; the model only counts simulator starts.
- Threads: the timer's thread, the watcher callbacks and the UI thread are modelled as a single sequence of explicit steps, with no interleaving.
- `java.util.Timer.schedule` throws on a negative delay or a cancelled timer. The model records any delay and does not model these exceptions. Calls on the service after `onDestroy` are also not modelled.
- The result of `requestAudioFocus` and failures inside `MediaPlayer` setup: both are only logged by the source. In both cases the player field is set either way.
- The screen-to-model coordinate transform, `scaleFromScreen`, `invalidate`, the drawer reset on pointer up, and all of `onDraw` and `getDistance`: rendering and floating-point pixel arithmetic.
- `AnchorWatchActivity.java`, an older view with an empty touch handler. Also left out: `Settings.java`, the reflection-driven provisioner; the number and distance picker preferences; and the fragments and activities that bind to the service.
- `Settings.attach` in `onCreate`: it hands the stored settings to the setters (including `setSimulate`) by reflection. `Settings.java` is not part of this model, so the constructor starts from defaults and a client applies settings by calling the setters.
- The `(float) meters` cast in `suggestNextUpdateIn`: `Request.minDistance` is a `real`, so the rounding of the distance to `float` is not modelled.
- The service's single binder (`private final IBinder binder`): the model's `AnchorWatchBinder` is built by the client from a service, and nothing stops two binders sharing one service. "At most one pending resume task" holds per binder, so clients are expected to build one binder per service.
- WatchService.Forwarded: accuracy and coordinates are `real`, so Java `float`/`double` rounding and NaN accuracy are not modelled.
- Sampling.RequestInterval: the hint is taken as the already truncated `(long) (seconds * 1000)`. Rounding of the product, and the saturation of the cast for huge hints, are not modelled. Saturation would give the same clamped result.

## Findings

| source | as written | input that shows it | evidently intended | confidence | as-written member | corrected member |
|---|---|---|---|---|---|---|
| src/main/java/org/vesalainen/boatwatch/AnchorWatchService.java:135-139 | `onDestroy` calls `releaseWakeLock()` and later `stopAlarm()`, which re-acquires a partial wake lock (line 381) | any destroy, e.g. after a drift alarm (`Scenarios.DestroyAsWrittenHoldsWakeLock`) | no wake lock is held once the service is destroyed | high, not executed | `WatchService.AnchorWatchService.OnDestroyAsWritten` | `WatchService.AnchorWatchService.OnDestroy` |
| src/main/java/org/vesalainen/boatwatch/AnchorWatchService.java:357 | `startAlarm` assigns a new `MediaPlayer` without releasing the one the field already refers to | alarm tone set and GPS on; a drift alarm (`Alarm`), then the accuracy watchdog runs (`FireAccuracyWatchdog`), then the drift alarm is muted (`Mute`), which releases only the second player (`Scenarios.AlarmTwiceOrphansPlayer`) | at most one alarm player exists, and muting releases it | medium, not executed | `WatchService.AnchorWatchService.StartAlarmAsWritten` | `WatchService.AnchorWatchService.StartAlarm` |
