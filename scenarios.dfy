/**
 * Sequences of calls on the service and the view, and what a client can
 * prove about their outcome from the contracts alone.
 */
module Scenarios {
  import opened Wrappers
  import opened JavaInt
  import opened Sampling
  import opened WatchService
  import opened CursorTable

  /** However often the drift alarm is raised within one mute window, it sounds and surfaces once. */
  method RepeatedDriftAlarmSoundsOnce(n: nat) returns (starts: nat, screens: seq<AlarmAction>)
    ensures starts == (if n == 0 then 0 else 1)
    ensures screens == (if n == 0 then [] else [AnchorAlarm])
  {
    var s := new AnchorWatchService();
    var i := 0;
    while i < n
      invariant 0 <= i <= n
      invariant s.Valid()
      invariant s.alarmMuted == (i > 0)
      invariant s.alarmStarts == (if i == 0 then 0 else 1)
      invariant s.surfaced == (if i == 0 then [] else [AnchorAlarm])
    {
      s.Alarm(1.0);
      i := i + 1;
    }
    starts, screens := s.alarmStarts, s.surfaced;
  }

  /**
   * Muting does not clear the latch: an alarm during the mute window is
   * ignored, and only after the resume task has run does the next alarm
   * sound again.
   */
  method MuteWindowThenResume() returns (startsWhileMuted: nat, startsAfterResume: nat)
    ensures startsWhileMuted == 1 && startsAfterResume == 2
  {
    var s := new AnchorWatchService();
    var b := new AnchorWatchBinder(s);
    s.Alarm(1.0);
    b.Mute(AnchorAlarm);
    s.Alarm(1.0);
    startsWhileMuted := s.alarmStarts;
    b.FireResumeAlarm();
    s.Alarm(1.0);
    startsAfterResume := s.alarmStarts;
  }

  /**
   * A second mute before the resume task runs replaces it: the first task
   * is cancelled, one task is pending, scheduled twice in all.
   */
  method SecondMuteReschedules() returns (pending: Task, armings: nat, cancellations: nat)
    ensures pending == Scheduled(0) && armings == 2 && cancellations == 1
  {
    var s := new AnchorWatchService();
    var b := new AnchorWatchBinder(s);
    s.Alarm(1.0);
    b.Mute(AnchorAlarm);
    b.Mute(AnchorAlarm);
    pending, armings, cancellations := b.resumeAlarm, b.resumeArmings, b.resumeCancellations;
  }

  /**
   * With a location manager, the same hint repeated any number of times
   * re-registers the listener at most once, and once exactly when the
   * clamped interval leaves the dead band above the initial 0.
   */
  method RepeatedHintReregistersOnce(h: Hint, meters: real, maxSleepSeconds: Int32, n: nat) returns (reregistrations: nat)
    ensures reregistrations <= 1
    ensures reregistrations == 1 <==>
      n > 0 && ShouldReregister(RequestInterval(h, Mul32(maxSleepSeconds, MillisPerSecond)), 0)
  {
    var s := new AnchorWatchService();
    s.SetGPSMaxSleep(maxSleepSeconds);
    s.SetSimulate(false);
    ghost var millis := RequestInterval(h, s.maxGPSSleepMillis);
    ghost var moves := ShouldReregister(millis, 0);
    var i := 0;
    while i < n
      invariant 0 <= i <= n
      invariant s.locationManagerPresent
      invariant s.maxGPSSleepMillis == Mul32(maxSleepSeconds, MillisPerSecond)
      invariant s.removals == (if i > 0 && moves then 1 else 0)
      invariant s.lastSleep == (if i > 0 && moves then millis else 0)
    {
      s.SuggestNextUpdateIn(h, meters);
      i := i + 1;
    }
    reregistrations := s.removals;
  }

  /**
   * In simulation mode no hint has any effect: `lastSleep` stays 0 and the
   * listener is never re-registered.
   */
  method HintsIgnoredInSimulation(hints: seq<Hint>) returns (lastSleep: int, reregistrations: nat)
    ensures lastSleep == 0 && reregistrations == 0
  {
    var s := new AnchorWatchService();
    s.SetGPSMaxSleep(600);
    s.SetSimulate(true);
    var i := 0;
    while i < |hints|
      invariant 0 <= i <= |hints|
      invariant !s.locationManagerPresent
      invariant s.lastSleep == 0 && s.removals == 0
    {
      s.SuggestNextUpdateIn(hints[i], 10.0);
      i := i + 1;
    }
    lastSleep, reregistrations := s.lastSleep, s.removals;
  }

  /**
   * GPS on, then only fixes worse than the minimum accuracy: none is
   * forwarded, the watchdog armed when the GPS came on is neither
   * restarted nor cancelled, and when it runs the accuracy alarm is
   * surfaced.
   */
  method InaccurateFixesRaiseAccuracyAlarm(bad: seq<Fix>, minAccuracy: Int32, minutes: Int32)
    returns (forwarded: nat, armings: nat, screens: seq<AlarmAction>)
    requires forall i :: 0 <= i < |bad| ==> bad[i].accuracy.Some? && bad[i].accuracy.value > minAccuracy as real
    ensures forwarded == 0 && armings == 1 && screens == [AccuracyAlarm]
  {
    var s := new AnchorWatchService();
    s.SetMinAccuracy(minAccuracy);
    s.SetAccuracyAlarmTime(minutes);
    s.SetSimulate(false);
    var i := 0;
    while i < |bad|
      invariant 0 <= i <= |bad|
      invariant s.Valid() && !s.timerCancelled
      invariant s.minAccuracy == minAccuracy
      invariant s.updates == [] && s.surfaced == []
      invariant s.accuracyWatchdog == Scheduled(s.accuracyAlarmMillis) && s.watchdogArmings == 1
    {
      s.OnLocationChanged(bad[i]);
      i := i + 1;
    }
    s.FireAccuracyWatchdog();
    forwarded, armings, screens := |s.updates|, s.watchdogArmings, s.surfaced;
  }

  /** An accurate fix after inaccurate ones is forwarded and restarts the watchdog before it has run. */
  method AccurateFixRestartsWatchdog(bad: Fix, good: Fix, minAccuracy: Int32)
    returns (forwarded: seq<Update>, armings: nat, screens: seq<AlarmAction>)
    requires bad.accuracy.Some? && bad.accuracy.value > minAccuracy as real
    requires good.accuracy.Some? && good.accuracy.value <= minAccuracy as real
    ensures |forwarded| == 1 && !forwarded[0].Position? && forwarded[0].accuracy == good.accuracy.value
    ensures armings == 2 && screens == []
  {
    var s := new AnchorWatchService();
    s.SetMinAccuracy(minAccuracy);
    s.SetSimulate(false);
    s.OnLocationChanged(bad);
    s.OnLocationChanged(bad);
    s.OnLocationChanged(good);
    forwarded, armings, screens := s.updates, s.watchdogArmings, s.surfaced;
  }

  /**
   * The source's path to an orphaned player: a tone is set, GPS is on, the
   * drift alarm sounds, the accuracy watchdog then runs before the user
   * mutes, and the mute releases only the player the field refers to. One
   * player is still alive and no field refers to it.
   */
  method AlarmTwiceOrphansPlayer(tone: string) returns (livePlayers: int, referenced: bool)
    requires |tone| > 0
    ensures livePlayers == 1 && !referenced
  {
    var s := new AnchorWatchService();
    var b := new AnchorWatchBinder(s);
    s.SetAlarmTone(tone);
    s.SetSimulate(false);
    s.Alarm(1.0);
    s.FireAccuracyWatchdog();
    b.Mute(AnchorAlarm);
    livePlayers, referenced := s.livePlayers, s.mediaPlayer;
  }

  /** The same sequence with the corrected `startAlarm`: muting leaves no player alive. */
  method AlarmTwiceThenMuteReleasesPlayer(tone: string) returns (livePlayers: int, referenced: bool)
    requires |tone| > 0
    ensures livePlayers == 0 && !referenced
  {
    var s := new AnchorWatchService();
    var b := new AnchorWatchBinder(s);
    s.SetAlarmTone(tone);
    s.SetSimulate(false);
    s.AlarmWithCorrectedStart(1.0);
    s.FireAccuracyWatchdogWithCorrectedStart();
    b.Mute(AnchorAlarm);
    livePlayers, referenced := s.livePlayers, s.mediaPlayer;
  }

  /** From a fresh service, one drift alarm makes one audio-focus request; simulation starts one simulator and resets nothing. */
  method FreshServiceCounts() returns (focusRequests: nat, simulatorStarts: nat, watchResets: nat)
    ensures focusRequests == 1 && simulatorStarts == 1 && watchResets == 0
  {
    var s := new AnchorWatchService();
    s.Alarm(1.0);
    s.SetSimulate(true);
    focusRequests, simulatorStarts, watchResets := s.audioFocusRequests, s.simulatorStarts, s.watchResets;
  }

  /** `onDestroy` as written, after an alarm: one wake lock is still held. */
  method DestroyAsWrittenHoldsWakeLock() returns (heldWakeLocks: int)
    ensures heldWakeLocks == 1
  {
    var s := new AnchorWatchService();
    s.Alarm(1.0);
    s.OnDestroyAsWritten();
    heldWakeLocks := s.heldWakeLocks;
  }

  /** The corrected `onDestroy` holds no wake lock afterwards. */
  method DestroyReleasesWakeLock() returns (heldWakeLocks: int)
    ensures heldWakeLocks == 0
  {
    var s := new AnchorWatchService();
    s.Alarm(1.0);
    s.OnDestroy();
    heldWakeLocks := s.heldWakeLocks;
  }

  /** Stopping through the binder makes destroy delete the backup; a plain destroy writes it. */
  method StopSelectsDelete() returns (afterStop: Backup, afterPlainDestroy: Backup)
    ensures afterStop == Deleted && afterPlainDestroy == Written
  {
    var s := new AnchorWatchService();
    var b := new AnchorWatchBinder(s);
    b.Stop();
    s.OnDestroy();
    var t := new AnchorWatchService();
    t.OnDestroy();
    afterStop, afterPlainDestroy := s.backup, t.backup;
  }

  /**
   * The view hit-tests a pointer down against the most recent safe
   * sector it was given, whatever came before.
   */
  method DownUsesLatestSector(g: Geometry, older: SafeSector, latest: SafeSector, e: MotionEvent, r: real)
    returns (tracked: bool)
    requires WellFormed(e) && e.action == Down
    ensures tracked <==> g.getCursor(latest, ActionPointer(e).x, ActionPointer(e).y, r).Some?
  {
    var v := new AnchorView(g);
    v.SafeSectorChanged(Some(older));
    v.SafeSectorChanged(Some(latest));
    var _ := v.OnTouchEvent(e, r);
    tracked := ActionPointer(e).id in v.cursorMap;
  }

  /** After the watch publishes a null safe sector, a pointer down grabs nothing, whatever came before. */
  method DownIgnoredAfterNullSector(g: Geometry, s: SafeSector, e: MotionEvent, r: real)
    returns (tracked: bool, commits: seq<Ready>)
    requires WellFormed(e) && e.action == Down
    ensures !tracked && commits == []
  {
    var v := new AnchorView(g);
    v.SafeSectorChanged(Some(s));
    v.SafeSectorChanged(None);
    var _ := v.OnTouchEvent(e, r);
    tracked := ActionPointer(e).id in v.cursorMap;
    commits := v.readies;
  }

  /**
   * Two pointers each grab a cursor; releasing the first commits its
   * cursor and leaves the second one tracked.
   */
  method ReleaseOneOfTwoPointers(g: Geometry, s: SafeSector, p: Pointer, q: Pointer, r: real)
    returns (commits: seq<Ready>, secondStillTracked: bool)
    requires p.id != q.id
    requires g.getCursor(s, p.x, p.y, r).Some? && g.getCursor(s, q.x, q.y, r).Some?
    ensures commits == [Ready(g.getCursor(s, p.x, p.y, r).value, p.x, p.y)]
    ensures secondStillTracked
  {
    var v := new AnchorView(g);
    v.SafeSectorChanged(Some(s));
    var _ := v.OnTouchEvent(MotionEvent(Down, 0, [p]), r);
    var _ := v.OnTouchEvent(MotionEvent(PointerDown, 1, [p, q]), r);
    var _ := v.OnTouchEvent(MotionEvent(PointerUp, 0, [p, q]), r);
    commits := v.readies;
    secondStillTracked := q.id in v.cursorMap;
  }
}
