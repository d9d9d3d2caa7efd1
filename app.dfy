/**
 The App component as an object whose fields the event handlers update in
 place.  The first five fields are the component's hook state; the others are
 what the platform keeps for it: the registered gyroscope listener and its
 update interval, the event loop's outstanding timers and next timer handle,
 and (as ghost history) the calls into the audio library and the times of the
 accepted shakes.  Each handler is proved to do what the matching function of
 module Detector does, and to keep Detector.Inv.
 */
module ShakeApp {
  import opened Detector

  class App {
    var gyroscopeData: Sample
    var isShaken: bool
    var lastShakeTime: nat
    var shakeTimeout: Option<Timer>
    var mySound: Option<Sound>

    var subscribed: bool
    var updateIntervalMs: nat
    var pendingTimers: set<Timer>
    var nextTimerId: nat
    ghost var audioLog: seq<AudioCall>
    ghost var triggers: seq<nat>

    /** The object's fields as a Detector state. */
    ghost function Snapshot(): State
      reads this
    {
      State(gyroscopeData, isShaken, lastShakeTime, shakeTimeout, mySound,
            subscribed, pendingTimers, nextTimerId, audioLog, triggers)
    }

    ghost predicate Valid()
      reads this
    {
      Inv(Snapshot())
    }

    /** Mount: the initial hook values, then the effect registers the listener
        and sets the sampling interval. */
    constructor ()
      ensures Valid() && Snapshot() == Init()
      ensures subscribed && updateIntervalMs == UpdateIntervalMs
    {
      gyroscopeData := Sample(0.0, 0.0, 0.0);
      isShaken := false;
      lastShakeTime := 0;
      shakeTimeout := None;
      mySound := None;
      pendingTimers := {};
      nextTimerId := 1;
      audioLog := [];
      triggers := [];
      subscribed := true;
      updateIntervalMs := UpdateIntervalMs;
    }

    /** Load and play the sound on the first call; stop and replay it on later calls. */
    method PlaySound()
      modifies this`mySound, this`audioLog
      ensures Snapshot() == Detector.PlaySound(old(Snapshot()))
      ensures mySound.Some? && (old(mySound).Some? ==> mySound == old(mySound))
      ensures Loads(audioLog) == Loads(old(audioLog)) + (if old(mySound).None? then 1 else 0)
      ensures Plays(audioLog) == Plays(old(audioLog)) + 1
    {
      PlaySoundLoadsOnlyWithoutHandle(Snapshot());
      if mySound.Some? {
        audioLog := audioLog + [StopAsync];
        audioLog := audioLog + [ReplayAsync];
      } else {
        audioLog := audioLog + [CreateAsync(PercussionAsset)];
        var sound := Sound(PercussionAsset);
        mySound := Some(sound);
        audioLog := audioLog + [PlayAsync];
      }
    }

    /** The reset timer's callback. */
    method ResetShakeState()
      modifies this`isShaken
      ensures !isShaken
    {
      isShaken := false;
    }

    /** Register a callback due `delay` ms after `now` with the event loop; returns its handle. */
    method SetTimeout(delay: nat, now: nat) returns (t: Timer)
      modifies this`pendingTimers, this`nextTimerId
      ensures t == Timer(old(nextTimerId), now + delay) && nextTimerId == old(nextTimerId) + 1
      ensures pendingTimers == old(pendingTimers) + {t}
    {
      t := Timer(nextTimerId, now + delay);
      nextTimerId := nextTimerId + 1;
      pendingTimers := pendingTimers + {t};
    }

    /** Cancel a timer: its callback will not run. */
    method ClearTimeout(t: Timer)
      modifies this`pendingTimers
      ensures pendingTimers == old(pendingTimers) - {t}
    {
      pendingTimers := pendingTimers - {t};
    }

    /** Clear the stored reset timer, if any, and store a new one due `DisplayMs` after `now`. */
    method ReplaceResetTimer(now: nat)
      modifies this`shakeTimeout, this`pendingTimers, this`nextTimerId
      ensures Snapshot() == ScheduleReset(old(Snapshot()), now)
    {
      if shakeTimeout.Some? {
        ClearTimeout(shakeTimeout.value);
      }
      var timeout := SetTimeout(DisplayMs, now);
      shakeTimeout := Some(timeout);
    }

    /** The accepted branch of the listener: raise the flag, play the sound, stamp
        the time and replace the reset timer. */
    method Trigger(now: nat)
      modifies this`isShaken, this`lastShakeTime, this`shakeTimeout,
               this`mySound, this`pendingTimers, this`nextTimerId, this`audioLog, this`triggers
      ensures Snapshot() == ScheduleReset(Detector.PlaySound(old(Snapshot()).(isShaken := true))
                                            .(lastShakeTime := now, triggers := old(triggers) + [now]), now)
    {
      isShaken := true;
      PlaySound();
      lastShakeTime := now;
      triggers := triggers + [now];
      ReplaceResetTimer(now);
    }

    /** The gyroscope listener, called with each reading while it is registered. */
    method OnReading(data: Sample, now: nat)
      requires Valid() && subscribed
      modifies this`gyroscopeData, this`isShaken, this`lastShakeTime, this`shakeTimeout,
               this`mySound, this`pendingTimers, this`nextTimerId, this`audioLog, this`triggers
      ensures Valid() && subscribed
      ensures Snapshot() == OnSample(old(Snapshot()), data, now)
      ensures gyroscopeData == data
      ensures !Accepts(old(Snapshot()), data, now) ==> Snapshot() == old(Snapshot()).(gyroscopeData := data)
      ensures Accepts(old(Snapshot()), data, now) ==>
        && isShaken && lastShakeTime == now && triggers == old(triggers) + [now]
        && shakeTimeout == Some(Timer(old(nextTimerId), now + DisplayMs))
        && pendingTimers == {shakeTimeout.value}
        && mySound == Some(Sound(PercussionAsset))
    {
      ghost var before := Snapshot();
      gyroscopeData := data;
      var currentTime := now;
      if IsShake(data) && currentTime - lastShakeTime > CooldownMs {
        if !isShaken {
          Trigger(currentTime);
        }
      }
      OnSamplePreservesInv(before, data, now);
      if Accepts(before, data, now) {
        AcceptedShake(before, data, now);
      }
    }

    /** The event loop runs an outstanding timer: it is no longer outstanding and
        its callback resets the "SHAKE!" state. */
    method OnTimerFires(t: Timer)
      requires Valid() && t in pendingTimers
      modifies this`pendingTimers, this`isShaken
      ensures Valid()
      ensures Snapshot() == OnTimer(old(Snapshot()), t)
      ensures !isShaken && pendingTimers == {}
      ensures lastShakeTime == old(lastShakeTime) && mySound == old(mySound) && gyroscopeData == old(gyroscopeData)
    {
      ghost var before := Snapshot();
      assert before.subscribed && before.isShaken;
      ResetOutstanding(before);
      pendingTimers := pendingTimers - {t};
      ResetShakeState();
      StepPreservesInv(before, Fire(t));
    }

    /** Unmount: the effect cleanup removes the listener and clears the stored timer;
        the sound effect's cleanup unloads a loaded sound. */
    method Unmount()
      requires Valid() && subscribed
      modifies this`subscribed, this`pendingTimers, this`audioLog
      ensures Valid()
      ensures Snapshot() == OnUnmount(old(Snapshot()))
      ensures !subscribed && pendingTimers == {}
      ensures isShaken == old(isShaken) && lastShakeTime == old(lastShakeTime)
    {
      ghost var before := Snapshot();
      subscribed := false;
      if shakeTimeout.Some? {
        ClearTimeout(shakeTimeout.value);
      }
      if mySound.Some? {
        audioLog := audioLog + [UnloadAsync];
      }
      UnmountCancelsReset(before);
      StepPreservesInv(before, Event.Unmount);
    }
  }
}
