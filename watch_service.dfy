/**
 * The supervisory state of the anchor-watch service: fix acceptance and
 * the accuracy watchdog, the drift-alarm latch and its mute/resume timer,
 * the single wake lock, the adaptive GPS interval, the settings setters
 * and the choice between persisting and deleting the watch on destroy.
 *
 * Platform calls (location manager, media player, audio manager, power
 * manager, activity start) are recorded as effects in counter and log
 * fields. The `java.util.Timer` is explicit: scheduling a task sets its
 * field to `Scheduled`, and a separate `Fire...` method runs the task body.
 */
module WatchService {
  import opened Wrappers
  import opened JavaInt
  import opened Sampling

  /** A position fix as the platform delivers it. */
  datatype Fix = Fix(longitude: real, latitude: real, time: int, accuracy: Option<real>, speed: Option<real>)

  /** The three overloads of the geometry engine's `update` a fix can be forwarded with. */
  datatype Update =
    | Position(longitude: real, latitude: real, time: int)
    | WithAccuracy(longitude: real, latitude: real, time: int, accuracy: real)
    | WithSpeed(longitude: real, latitude: real, time: int, accuracy: real, speed: real)

  /**
   * The update a fix is forwarded as, or None when it is rejected as too
   * inaccurate. A fix without accuracy is forwarded with position and
   * time only, even when it carries a speed.
   */
  function Forwarded(fix: Fix, minAccuracy: int): (u: Option<Update>)
    ensures u.Some? <==> (fix.accuracy.None? || fix.accuracy.value <= minAccuracy as real)
    ensures u.Some? ==> u.value.longitude == fix.longitude && u.value.latitude == fix.latitude && u.value.time == fix.time
    ensures u.Some? ==> (u.value.WithSpeed? <==> fix.accuracy.Some? && fix.speed.Some?)
    ensures u.Some? ==> (u.value.Position? <==> fix.accuracy.None?)
    ensures u.Some? && fix.accuracy.Some? ==> u.value.accuracy == fix.accuracy.value
    ensures u.Some? && u.value.WithSpeed? ==> u.value.speed == fix.speed.value
  {
    match fix.accuracy
    case None => Some(Position(fix.longitude, fix.latitude, fix.time))
    case Some(a) =>
      if a <= minAccuracy as real then
        match fix.speed
        case Some(s) => Some(WithSpeed(fix.longitude, fix.latitude, fix.time, a, s))
        case None => Some(WithAccuracy(fix.longitude, fix.latitude, fix.time, a))
      else None
  }

  /** The state of a field that holds a `TimerTask` reference. */
  datatype Task =
    | Idle                    // the field is null
    | Scheduled(delay: int)   // handed to the timer with this delay, not yet run
    | Ran                     // the task has run and the field still refers to it

  /** The wake-lock levels the service asks for. */
  datatype WakeLockKind = Partial | FullWakeup

  /** Intent actions: the two alarm screens and any other string passed to `mute`. */
  datatype AlarmAction = AnchorAlarm | AccuracyAlarm | OtherAction(name: string)

  /** One `requestLocationUpdates` call: minimum time (ms) and minimum distance (m). */
  datatype Request = Request(interval: int, minDistance: real)

  /** What happened to the backup file of the watch. */
  datatype Backup = Untouched | Deleted | Written

  /** Milliseconds per unit of the settings the service converts. */
  const MillisPerMinute: Int32 := 60000
  const MillisPerSecond: Int32 := 1000

  /**
   * The setters store the configured values exactly while the products
   * fit in an `int`: up to 35791 minutes and up to 2147483 seconds.
   */
  lemma SettingsConvertExactly(minutes: Int32, seconds: Int32)
    requires 0 <= minutes <= 35791 && 0 <= seconds <= 2147483
    ensures Mul32(minutes, MillisPerMinute) == minutes * 60000
    ensures Mul32(MillisPerMinute, minutes) == minutes * 60000
    ensures Mul32(seconds, MillisPerSecond) == seconds * 1000
  {
  }

  /** One minute more and the mute time wraps around to a negative delay. */
  lemma LongMuteTimeWraps()
    ensures Mul32(MillisPerMinute, 35792) == 35792 * 60000 - Modulus
    ensures Mul32(MillisPerMinute, 35792) < 0
  {
  }

  class AnchorWatchService {
    // Platform handles and settings
    var locationManagerPresent: bool   // false in simulation mode
    var simulatorRunning: bool
    var stopping: bool
    var alarmTone: string              // null and empty both mean "no tone"
    var mediaPlayer: bool              // mediaPlayer != null
    var alarmMuted: bool
    var muteMillis: int
    var wakeLock: Option<WakeLockKind>
    var minAccuracy: int
    var maxGPSSleepMillis: int
    var accuracyAlarmMillis: int
    var accuracyWatchdog: Task
    var lastSleep: int
    var timerCancelled: bool
    var registeredWithWatch: bool

    // Recorded effects
    var requests: seq<Request>         // requestLocationUpdates calls, in order
    var removals: nat                  // removeUpdates calls
    var updates: seq<Update>           // fixes forwarded to the geometry engine
    var alarmStarts: nat               // runs of startAlarm
    var surfaced: seq<AlarmAction>     // alarm screens brought to the front
    var audioFocusRequests: nat
    var watchdogArmings: nat           // timer.schedule calls for the watchdog
    var watchResets: nat
    var simulatorStarts: nat
    var heldWakeLocks: int             // acquired and not yet released
    var livePlayers: int               // media players created and not yet released
    var backup: Backup
    var stopSelfRequested: bool

    /**
     * What the source maintains: exactly the referenced wake lock is held,
     * and the referenced media player, if any, is alive. Further live
     * players that no field refers to are possible (see `StartAlarmAsWritten`).
     */
    ghost predicate Valid()
      reads this
    {
      && heldWakeLocks == (if wakeLock.Some? then 1 else 0)
      && livePlayers >= (if mediaPlayer then 1 else 0)
    }

    /** The intended invariant on players: the referenced one is the only one alive. */
    ghost predicate NoOrphanedPlayer()
      reads this
    {
      livePlayers == (if mediaPlayer then 1 else 0)
    }

    /**
     * `onCreate` without the backup read and without `Settings.attach`:
     * register with the watch and take a partial wake lock. Every setting
     * has its default; a client applies stored settings by calling the setters.
     */
    constructor ()
      ensures Valid() && NoOrphanedPlayer()
      ensures wakeLock == Some(Partial) && registeredWithWatch
      ensures !locationManagerPresent && !simulatorRunning && !stopping && !alarmMuted
      ensures accuracyWatchdog == Idle && lastSleep == 0 && !mediaPlayer && livePlayers == 0 && !timerCancelled
      ensures minAccuracy == 0 && maxGPSSleepMillis == 0 && accuracyAlarmMillis == 0 && muteMillis == 0
      ensures alarmTone == []
      ensures requests == [] && removals == 0 && updates == [] && alarmStarts == 0 && surfaced == []
      ensures watchdogArmings == 0 && backup == Untouched && !stopSelfRequested
      ensures audioFocusRequests == 0 && watchResets == 0 && simulatorStarts == 0 && heldWakeLocks == 1
    {
      locationManagerPresent, simulatorRunning, stopping := false, false, false;
      alarmTone, mediaPlayer, alarmMuted, muteMillis := [], false, false, 0;
      minAccuracy, maxGPSSleepMillis, accuracyAlarmMillis := 0, 0, 0;
      accuracyWatchdog, lastSleep, timerCancelled := Idle, 0, false;
      requests, removals, updates, alarmStarts, surfaced := [], 0, [], 0, [];
      audioFocusRequests, watchdogArmings, watchResets, simulatorStarts := 0, 0, 0, 0;
      livePlayers, backup, stopSelfRequested := 0, Untouched, false;
      registeredWithWatch := true;
      wakeLock, heldWakeLocks := Some(Partial), 1;
    }

    // ---- Wake lock ----

    method ReleaseWakeLock()
      modifies this`wakeLock, this`heldWakeLocks
      ensures wakeLock == None
      ensures heldWakeLocks == old(heldWakeLocks) - (if old(wakeLock).Some? then 1 else 0)
    {
      if wakeLock.Some? {
        heldWakeLocks := heldWakeLocks - 1;
        wakeLock := None;
      }
    }

    /** Releases any held lock before taking the new one, so the count of held locks never grows past one. */
    method AcquireWakeLock(kind: WakeLockKind)
      modifies this`wakeLock, this`heldWakeLocks
      ensures wakeLock == Some(kind)
      ensures heldWakeLocks == old(heldWakeLocks) - (if old(wakeLock).Some? then 1 else 0) + 1
    {
      ReleaseWakeLock();
      wakeLock := Some(kind);
      heldWakeLocks := heldWakeLocks + 1;
    }

    // ---- Alarm sound ----

    /**
     * `startAlarm` with the evident intent that at most one alarm player
     * exists: a player left over from an earlier start is released before
     * the new one is created.
     */
    method StartAlarm()
      modifies this`wakeLock, this`heldWakeLocks, this`audioFocusRequests
      modifies this`mediaPlayer, this`livePlayers, this`alarmStarts
      ensures wakeLock == Some(FullWakeup)
      ensures heldWakeLocks == old(heldWakeLocks) - (if old(wakeLock).Some? then 1 else 0) + 1
      ensures audioFocusRequests == old(audioFocusRequests) + 1
      ensures alarmStarts == old(alarmStarts) + 1
      ensures mediaPlayer == (old(mediaPlayer) || |alarmTone| > 0)
      ensures livePlayers == if |alarmTone| > 0 then old(livePlayers) - (if old(mediaPlayer) then 1 else 0) + 1
                             else old(livePlayers)
    {
      AcquireWakeLock(FullWakeup);
      audioFocusRequests := audioFocusRequests + 1;
      if |alarmTone| > 0 {
        if mediaPlayer {
          livePlayers := livePlayers - 1;
        }
        mediaPlayer := true;
        livePlayers := livePlayers + 1;
      }
      alarmStarts := alarmStarts + 1;
    }

    /** `startAlarm` as written: the field is overwritten and a playing player is no longer referenced. */
    method StartAlarmAsWritten()
      modifies this`wakeLock, this`heldWakeLocks, this`audioFocusRequests
      modifies this`mediaPlayer, this`livePlayers, this`alarmStarts
      ensures wakeLock == Some(FullWakeup)
      ensures heldWakeLocks == old(heldWakeLocks) - (if old(wakeLock).Some? then 1 else 0) + 1
      ensures audioFocusRequests == old(audioFocusRequests) + 1
      ensures alarmStarts == old(alarmStarts) + 1
      ensures mediaPlayer == (old(mediaPlayer) || |alarmTone| > 0)
      ensures livePlayers == old(livePlayers) + (if |alarmTone| > 0 then 1 else 0)
    {
      AcquireWakeLock(FullWakeup);
      audioFocusRequests := audioFocusRequests + 1;
      if |alarmTone| > 0 {
        mediaPlayer := true;
        livePlayers := livePlayers + 1;
      }
      alarmStarts := alarmStarts + 1;
    }

    /** Releases the player and falls back to a partial wake lock. */
    method StopAlarm()
      modifies this`wakeLock, this`heldWakeLocks, this`mediaPlayer, this`livePlayers
      ensures !mediaPlayer && wakeLock == Some(Partial)
      ensures livePlayers == old(livePlayers) - (if old(mediaPlayer) then 1 else 0)
      ensures heldWakeLocks == old(heldWakeLocks) - (if old(wakeLock).Some? then 1 else 0) + 1
    {
      if mediaPlayer {
        livePlayers := livePlayers - 1;
        mediaPlayer := false;
      }
      AcquireWakeLock(Partial);
    }

    /**
     * The drift alarm from the geometry engine. It sounds and surfaces only
     * when not latched, and latches; the distance is not used. The sound is
     * started by `startAlarm` as written, so with a tone a new player is
     * created even when one is already referenced.
     */
    method Alarm(distance: real)
      requires Valid()
      modifies this`alarmMuted, this`surfaced
      modifies this`wakeLock, this`heldWakeLocks, this`audioFocusRequests
      modifies this`mediaPlayer, this`livePlayers, this`alarmStarts
      ensures Valid()
      ensures alarmMuted
      ensures old(alarmMuted) ==> unchanged(this)
      ensures !old(alarmMuted) ==>
        && alarmStarts == old(alarmStarts) + 1
        && surfaced == old(surfaced) + [AnchorAlarm]
        && wakeLock == Some(FullWakeup)
        && audioFocusRequests == old(audioFocusRequests) + 1
        && mediaPlayer == (old(mediaPlayer) || |alarmTone| > 0)
        && livePlayers == old(livePlayers) + (if |alarmTone| > 0 then 1 else 0)
    {
      if !alarmMuted {
        alarmMuted := true;
        StartAlarmAsWritten();
        surfaced := surfaced + [AnchorAlarm];
      }
    }

    /** `Alarm` with the corrected `StartAlarm`: it keeps the referenced player the only live one. */
    method AlarmWithCorrectedStart(distance: real)
      requires Valid() && NoOrphanedPlayer()
      modifies this`alarmMuted, this`surfaced
      modifies this`wakeLock, this`heldWakeLocks, this`audioFocusRequests
      modifies this`mediaPlayer, this`livePlayers, this`alarmStarts
      ensures Valid() && NoOrphanedPlayer()
      ensures alarmMuted
      ensures old(alarmMuted) ==> unchanged(this)
      ensures !old(alarmMuted) ==>
        && alarmStarts == old(alarmStarts) + 1
        && surfaced == old(surfaced) + [AnchorAlarm]
        && wakeLock == Some(FullWakeup)
        && audioFocusRequests == old(audioFocusRequests) + 1
        && mediaPlayer == (old(mediaPlayer) || |alarmTone| > 0)
    {
      if !alarmMuted {
        alarmMuted := true;
        StartAlarm();
        surfaced := surfaced + [AnchorAlarm];
      }
    }

    // ---- Accuracy watchdog ----

    /** Schedules a watchdog only when the field is null; an existing task, run or not, is kept. */
    method StartAccuracyWatchDog()
      modifies this`accuracyWatchdog, this`watchdogArmings
      ensures old(accuracyWatchdog) == Idle ==>
        accuracyWatchdog == Scheduled(accuracyAlarmMillis) && watchdogArmings == old(watchdogArmings) + 1
      ensures old(accuracyWatchdog) != Idle ==>
        accuracyWatchdog == old(accuracyWatchdog) && watchdogArmings == old(watchdogArmings)
    {
      if accuracyWatchdog == Idle {
        accuracyWatchdog := Scheduled(accuracyAlarmMillis);
        watchdogArmings := watchdogArmings + 1;
      }
    }

    /** Cancels and clears the watchdog; idempotent. */
    method StopAccuracyWatchDog()
      modifies this`accuracyWatchdog
      ensures accuracyWatchdog == Idle
    {
      if accuracyWatchdog != Idle {
        accuracyWatchdog := Idle;
      }
    }

    /**
     * The timer runs the watchdog task: sound the alarm with `startAlarm`
     * as written and surface the accuracy screen. The task does not clear
     * its field. A timer step with no scheduled watchdog, or after the
     * timer was cancelled, does nothing.
     */
    method FireAccuracyWatchdog()
      requires Valid()
      modifies this`accuracyWatchdog, this`surfaced
      modifies this`wakeLock, this`heldWakeLocks, this`audioFocusRequests
      modifies this`mediaPlayer, this`livePlayers, this`alarmStarts
      ensures Valid()
      ensures !(old(accuracyWatchdog).Scheduled? && !timerCancelled) ==> unchanged(this)
      ensures old(accuracyWatchdog).Scheduled? && !timerCancelled ==>
        && accuracyWatchdog == Ran
        && alarmStarts == old(alarmStarts) + 1
        && surfaced == old(surfaced) + [AccuracyAlarm]
        && wakeLock == Some(FullWakeup)
        && audioFocusRequests == old(audioFocusRequests) + 1
        && mediaPlayer == (old(mediaPlayer) || |alarmTone| > 0)
        && livePlayers == old(livePlayers) + (if |alarmTone| > 0 then 1 else 0)
    {
      if accuracyWatchdog.Scheduled? && !timerCancelled {
        accuracyWatchdog := Ran;
        StartAlarmAsWritten();
        surfaced := surfaced + [AccuracyAlarm];
      }
    }

    /** The watchdog task with the corrected `StartAlarm`: it keeps the referenced player the only live one. */
    method FireAccuracyWatchdogWithCorrectedStart()
      requires Valid() && NoOrphanedPlayer()
      modifies this`accuracyWatchdog, this`surfaced
      modifies this`wakeLock, this`heldWakeLocks, this`audioFocusRequests
      modifies this`mediaPlayer, this`livePlayers, this`alarmStarts
      ensures Valid() && NoOrphanedPlayer()
      ensures !(old(accuracyWatchdog).Scheduled? && !timerCancelled) ==> unchanged(this)
      ensures old(accuracyWatchdog).Scheduled? && !timerCancelled ==>
        && accuracyWatchdog == Ran
        && alarmStarts == old(alarmStarts) + 1
        && surfaced == old(surfaced) + [AccuracyAlarm]
        && wakeLock == Some(FullWakeup)
        && audioFocusRequests == old(audioFocusRequests) + 1
        && mediaPlayer == (old(mediaPlayer) || |alarmTone| > 0)
    {
      if accuracyWatchdog.Scheduled? && !timerCancelled {
        accuracyWatchdog := Ran;
        StartAlarm();
        surfaced := surfaced + [AccuracyAlarm];
      }
    }

    // ---- Fixes ----

    /**
     * A fix arrives. An accepted fix cancels the watchdog and is forwarded;
     * a rejected one is dropped. A watchdog is then started if none is held,
     * so an accepted fix re-arms it and a rejected fix leaves an existing
     * one as it was.
     */
    method OnLocationChanged(fix: Fix)
      modifies this`accuracyWatchdog, this`watchdogArmings, this`updates
      ensures accuracyWatchdog != Idle
      ensures Forwarded(fix, minAccuracy).Some? ==>
        && updates == old(updates) + [Forwarded(fix, minAccuracy).value]
        && accuracyWatchdog == Scheduled(accuracyAlarmMillis)
        && watchdogArmings == old(watchdogArmings) + 1
      ensures Forwarded(fix, minAccuracy).None? ==> updates == old(updates)
      ensures Forwarded(fix, minAccuracy).None? && old(accuracyWatchdog) != Idle ==>
        accuracyWatchdog == old(accuracyWatchdog) && watchdogArmings == old(watchdogArmings)
      ensures Forwarded(fix, minAccuracy).None? && old(accuracyWatchdog) == Idle ==>
        accuracyWatchdog == Scheduled(accuracyAlarmMillis) && watchdogArmings == old(watchdogArmings) + 1
    {
      match fix.accuracy {
        case Some(a) =>
          if a <= minAccuracy as real {
            StopAccuracyWatchDog();
            match fix.speed {
              case Some(s) =>
                updates := updates + [WithSpeed(fix.longitude, fix.latitude, fix.time, a, s)];
              case None =>
                updates := updates + [WithAccuracy(fix.longitude, fix.latitude, fix.time, a)];
            }
          }
        case None =>
          StopAccuracyWatchDog();
          updates := updates + [Position(fix.longitude, fix.latitude, fix.time)];
      }
      StartAccuracyWatchDog();
    }

    // ---- Adaptive interval ----

    /**
     * The engine suggests the next update interval. Without a location
     * manager nothing happens. Otherwise the clamped interval replaces
     * `lastSleep`, with one remove and one request, exactly when it
     * leaves the dead band above `lastSleep`.
     */
    method SuggestNextUpdateIn(h: Hint, meters: real)
      modifies this`lastSleep, this`requests, this`removals
      ensures !locationManagerPresent ==> unchanged(this)
      ensures locationManagerPresent && ShouldReregister(RequestInterval(h, maxGPSSleepMillis), old(lastSleep)) ==>
        && lastSleep == RequestInterval(h, maxGPSSleepMillis)
        && removals == old(removals) + 1
        && requests == old(requests) + [Request(lastSleep, meters)]
      ensures locationManagerPresent && !ShouldReregister(RequestInterval(h, maxGPSSleepMillis), old(lastSleep)) ==>
        unchanged(this)
    {
      if locationManagerPresent {
        var millis := RequestInterval(h, maxGPSSleepMillis);
        if ShouldReregister(millis, lastSleep) {
          lastSleep := millis;
          removals := removals + 1;
          requests := requests + [Request(lastSleep, meters)];
        }
      }
    }

    // ---- Settings ----

    /**
     * Simulation on: drop the location manager (resetting the watch if
     * there was one) and start a simulator. Off: stop a running simulator
     * (resetting the watch), take the location manager, request updates
     * at `lastSleep` and 1 m, and start the watchdog.
     */
    method SetSimulate(simulate: bool)
      modifies this`locationManagerPresent, this`simulatorRunning, this`simulatorStarts
      modifies this`removals, this`requests, this`watchResets
      modifies this`accuracyWatchdog, this`watchdogArmings
      ensures locationManagerPresent == !simulate
      ensures simulatorRunning == simulate
      ensures simulate ==>
        && simulatorStarts == old(simulatorStarts) + 1
        && removals == old(removals) + (if old(locationManagerPresent) then 1 else 0)
        && watchResets == old(watchResets) + (if old(locationManagerPresent) then 1 else 0)
        && requests == old(requests)
        && accuracyWatchdog == old(accuracyWatchdog) && watchdogArmings == old(watchdogArmings)
      ensures !simulate ==>
        && simulatorStarts == old(simulatorStarts)
        && removals == old(removals)
        && watchResets == old(watchResets) + (if old(simulatorRunning) then 1 else 0)
        && requests == old(requests) + [Request(lastSleep, 1.0)]
        && accuracyWatchdog != Idle
        && (old(accuracyWatchdog) == Idle ==>
              accuracyWatchdog == Scheduled(accuracyAlarmMillis) && watchdogArmings == old(watchdogArmings) + 1)
        && (old(accuracyWatchdog) != Idle ==>
              accuracyWatchdog == old(accuracyWatchdog) && watchdogArmings == old(watchdogArmings))
    {
      if simulate {
        if locationManagerPresent {
          removals := removals + 1;
          locationManagerPresent := false;
          watchResets := watchResets + 1;
        }
        simulatorRunning := true;
        simulatorStarts := simulatorStarts + 1;
      } else {
        if simulatorRunning {
          simulatorRunning := false;
          watchResets := watchResets + 1;
        }
        locationManagerPresent := true;
        requests := requests + [Request(lastSleep, 1.0)];
        StartAccuracyWatchDog();
      }
    }

    method SetMinAccuracy(accuracy: Int32)
      modifies this`minAccuracy
      ensures minAccuracy == accuracy
    {
      minAccuracy := accuracy;
    }

    /** Minutes to milliseconds, multiplied in `int`. */
    method SetAccuracyAlarmTime(minutes: Int32)
      modifies this`accuracyAlarmMillis
      ensures accuracyAlarmMillis == Mul32(minutes, MillisPerMinute)
    {
      accuracyAlarmMillis := Mul32(minutes, MillisPerMinute);
    }

    /** Minutes to milliseconds, multiplied in `int` and then widened to `long`. */
    method SetMuteTime(minutes: Int32)
      modifies this`muteMillis
      ensures muteMillis == Mul32(MillisPerMinute, minutes)
    {
      muteMillis := Mul32(MillisPerMinute, minutes);
    }

    method SetAlarmTone(tone: string)
      modifies this`alarmTone
      ensures alarmTone == tone
    {
      alarmTone := tone;
    }

    /** Seconds to milliseconds, multiplied in `int` and then widened to `long`. */
    method SetGPSMaxSleep(seconds: Int32)
      modifies this`maxGPSSleepMillis
      ensures maxGPSSleepMillis == Mul32(seconds, MillisPerSecond)
    {
      maxGPSSleepMillis := Mul32(seconds, MillisPerSecond);
    }

    // ---- Destroy ----

    /**
     * `onDestroy` as written: it releases the wake lock first and then
     * calls `stopAlarm`, which acquires a partial wake lock again, so a
     * lock is still held when the service is gone.
     */
    method OnDestroyAsWritten()
      requires Valid()
      modifies this`wakeLock, this`heldWakeLocks, this`timerCancelled, this`registeredWithWatch
      modifies this`mediaPlayer, this`livePlayers, this`locationManagerPresent, this`removals, this`backup
      ensures Valid()
      ensures wakeLock == Some(Partial) && heldWakeLocks == 1
      ensures !mediaPlayer && livePlayers == old(livePlayers) - (if old(mediaPlayer) then 1 else 0)
      ensures timerCancelled && !registeredWithWatch && !locationManagerPresent
      ensures removals == old(removals) + (if old(locationManagerPresent) then 1 else 0)
      ensures backup == if stopping then Deleted else Written
    {
      ReleaseWakeLock();
      timerCancelled := true;
      registeredWithWatch := false;
      StopAlarm();
      DetachAndPersist();
    }

    /**
     * `onDestroy` with the evident intent that no wake lock outlives the
     * service: the alarm is stopped before the lock is released.
     */
    method OnDestroy()
      requires Valid()
      modifies this`wakeLock, this`heldWakeLocks, this`timerCancelled, this`registeredWithWatch
      modifies this`mediaPlayer, this`livePlayers, this`locationManagerPresent, this`removals, this`backup
      ensures Valid()
      ensures wakeLock == None && heldWakeLocks == 0
      ensures !mediaPlayer && livePlayers == old(livePlayers) - (if old(mediaPlayer) then 1 else 0)
      ensures timerCancelled && !registeredWithWatch && !locationManagerPresent
      ensures removals == old(removals) + (if old(locationManagerPresent) then 1 else 0)
      ensures backup == if stopping then Deleted else Written
    {
      StopAlarm();
      ReleaseWakeLock();
      timerCancelled := true;
      registeredWithWatch := false;
      DetachAndPersist();
    }

    /** The tail of `onDestroy`: drop the location manager, then delete the backup when stopping and write it otherwise. */
    method DetachAndPersist()
      modifies this`locationManagerPresent, this`removals, this`backup
      ensures !locationManagerPresent
      ensures removals == old(removals) + (if old(locationManagerPresent) then 1 else 0)
      ensures backup == if stopping then Deleted else Written
    {
      if locationManagerPresent {
        removals := removals + 1;
        locationManagerPresent := false;
      }
      if stopping {
        backup := Deleted;
      } else {
        backup := Written;
      }
    }
  }

  /**
   * The binder clients use to control the service. It owns the resume
   * task that ends the drift alarm's mute window.
   */
  class AnchorWatchBinder {
    const service: AnchorWatchService
    var resumeAlarm: Task
    var resumeArmings: nat        // timer.schedule calls for the resume task
    var resumeCancellations: nat  // cancel calls on a pending resume task

    constructor (service: AnchorWatchService)
      ensures this.service == service && resumeAlarm == Idle && resumeArmings == 0 && resumeCancellations == 0
    {
      this.service := service;
      resumeAlarm := Idle;
      resumeArmings, resumeCancellations := 0, 0;
    }

    /** Stop for good: the next destroy deletes the backup instead of writing it. */
    method Stop()
      modifies service`stopping, service`stopSelfRequested
      ensures service.stopping && service.stopSelfRequested
    {
      service.stopping := true;
      service.stopSelfRequested := true;
    }

    /**
     * Every action silences the alarm. The drift action cancels a pending
     * resume task and schedules exactly one new one with the mute delay;
     * the accuracy action clears the watchdog. The latch itself is left set.
     */
    method Mute(action: AlarmAction)
      requires service.Valid()
      modifies this, service`wakeLock, service`heldWakeLocks, service`mediaPlayer, service`livePlayers
      modifies service`accuracyWatchdog
      ensures service.Valid()
      ensures !service.mediaPlayer && service.wakeLock == Some(Partial)
      ensures service.livePlayers == old(service.livePlayers) - (if old(service.mediaPlayer) then 1 else 0)
      ensures action == AnchorAlarm ==>
        && resumeAlarm == Scheduled(service.muteMillis)
        && resumeArmings == old(resumeArmings) + 1
        && resumeCancellations == old(resumeCancellations) + (if old(resumeAlarm) != Idle then 1 else 0)
        && service.accuracyWatchdog == old(service.accuracyWatchdog)
      ensures action == AccuracyAlarm ==>
        && service.accuracyWatchdog == Idle
        && resumeAlarm == old(resumeAlarm) && resumeArmings == old(resumeArmings)
        && resumeCancellations == old(resumeCancellations)
      ensures action.OtherAction? ==>
        && service.accuracyWatchdog == old(service.accuracyWatchdog)
        && resumeAlarm == old(resumeAlarm) && resumeArmings == old(resumeArmings)
        && resumeCancellations == old(resumeCancellations)
    {
      service.StopAlarm();
      match action {
        case AnchorAlarm =>
          if resumeAlarm != Idle {
            resumeCancellations := resumeCancellations + 1;
          }
          resumeAlarm := Scheduled(service.muteMillis);
          resumeArmings := resumeArmings + 1;
        case AccuracyAlarm =>
          service.StopAccuracyWatchDog();
        case OtherAction(_) =>
      }
    }

    /** The timer runs the resume task: the drift alarm may sound again. */
    method FireResumeAlarm()
      modifies this`resumeAlarm, service`alarmMuted
      ensures old(resumeAlarm).Scheduled? && !service.timerCancelled ==> !service.alarmMuted && resumeAlarm == Idle
      ensures !(old(resumeAlarm).Scheduled? && !service.timerCancelled) ==>
        service.alarmMuted == old(service.alarmMuted) && resumeAlarm == old(resumeAlarm)
    {
      if resumeAlarm.Scheduled? && !service.timerCancelled {
        service.alarmMuted := false;
        resumeAlarm := Idle;
      }
    }
  }
}
