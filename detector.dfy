/**
 The shake detector of the App component as a state machine over values.

 The component keeps five pieces of state (the last gyroscope reading, the
 "shaken" flag, the time of the last accepted shake, the handle of the reset
 timer and the loaded sound).  The state below adds what the platform holds on
 the component's behalf: whether the gyroscope listener is still registered,
 the timers the event loop will still run, the next handle `setTimeout` hands
 out, the calls made into the audio library and, as a history, the times of
 the accepted shakes.  Every event the component reacts to is one function
 from state to state; `Run` replays a sequence of events.
 */
module Detector {

  datatype Option<T> = None | Some(value: T)

  /** A reading is a shake when some axis exceeds this magnitude. */
  const ShakeThreshold: real := 1.0
  /** A shake is accepted only when strictly more ms than this passed since the last one. */
  const CooldownMs: nat := 1500
  /** The "SHAKE!" state is reset this many ms after an accepted shake. */
  const DisplayMs: nat := 1200
  /** The sampling interval requested from the gyroscope, in ms. */
  const UpdateIntervalMs: nat := 100
  /** The bundled sound that is played on a shake. */
  const PercussionAsset: string := "./assets/sound/percussion.wav"

  /** One gyroscope reading, one value per axis. */
  datatype Sample = Sample(x: real, y: real, z: real)

  /** A timer registered with `setTimeout`: its handle and the time its callback is due. */
  datatype Timer = Timer(id: nat, due: nat)

  /** A sound object created by the audio library. */
  datatype Sound = Sound(asset: string)

  /** The calls the component makes into the audio library. */
  datatype AudioCall = CreateAsync(asset: string) | PlayAsync | StopAsync | ReplayAsync | UnloadAsync

  datatype State = State(
    // the component's own state
    gyroscopeData: Sample,
    isShaken: bool,
    lastShakeTime: nat,
    shakeTimeout: Option<Timer>,
    mySound: Option<Sound>,
    // what the platform holds for it
    subscribed: bool,
    pendingTimers: set<Timer>,
    nextTimerId: nat,
    audioLog: seq<AudioCall>,
    triggers: seq<nat>)

  /** What can happen to the component: a gyroscope reading at time `now`,
      a timer callback running, or the component being unmounted. */
  datatype Event = Reading(data: Sample, now: nat) | Fire(timer: Timer) | Unmount

  function Abs(v: real): (r: real)
    ensures r >= 0.0 && (r == v || r == -v)
  {
    if v < 0.0 then -v else v
  }

  /** Some axis of the reading has magnitude above the threshold; equivalently,
      the reading lies outside the cube [-1, 1]^3. */
  function IsShake(s: Sample): (b: bool)
    ensures b <==> !(-ShakeThreshold <= s.x <= ShakeThreshold && -ShakeThreshold <= s.y <= ShakeThreshold
                     && -ShakeThreshold <= s.z <= ShakeThreshold)
  {
    Abs(s.x) > ShakeThreshold || Abs(s.y) > ShakeThreshold || Abs(s.z) > ShakeThreshold
  }

  /** The state right after mount: the initial hook values, the listener registered. */
  function Init(): (st: State)
    ensures Inv(st)
  {
    State(Sample(0.0, 0.0, 0.0), false, 0, None, None, true, {}, 1, [], [])
  }

  /** The listener's guard: a shake, outside the cooldown, while not already shaken. */
  function Accepts(st: State, s: Sample, now: nat): (b: bool)
    ensures !IsShake(s) ==> !b
    ensures now <= st.lastShakeTime + CooldownMs ==> !b
    ensures st.isShaken ==> !b
  {
    IsShake(s) && now - st.lastShakeTime > CooldownMs && !st.isShaken
  }

  /** `clearTimeout` on the stored handle, if there is one: that timer no longer runs. */
  function ClearTimeout(pending: set<Timer>, handle: Option<Timer>): (r: set<Timer>)
    ensures r <= pending
    ensures handle.Some? ==> handle.value !in r
    ensures forall t :: t in pending && handle != Some(t) ==> t in r
  {
    match handle
    case None => pending
    case Some(t) => pending - {t}
  }

  /** playSound: load and play on the first call, stop and replay the same sound afterwards. */
  function PlaySound(st: State): (r: State)
    ensures r.mySound.Some? && (st.mySound.Some? ==> r.mySound == st.mySound)
    ensures |r.audioLog| == |st.audioLog| + 2 && r.audioLog[..|st.audioLog|] == st.audioLog
    ensures r.(mySound := st.mySound, audioLog := st.audioLog) == st
  {
    match st.mySound
    case Some(_) =>
      st.(audioLog := st.audioLog + [StopAsync, ReplayAsync])
    case None =>
      st.(mySound := Some(Sound(PercussionAsset)),
          audioLog := st.audioLog + [CreateAsync(PercussionAsset), PlayAsync])
  }

  /** Clear the previous reset timer and register a new one, due `DisplayMs` after `now`. */
  function ScheduleReset(st: State, now: nat): (r: State)
    ensures r.shakeTimeout == Some(Timer(st.nextTimerId, now + DisplayMs))
    ensures r.shakeTimeout.value in r.pendingTimers
    ensures r.pendingTimers <= st.pendingTimers + {r.shakeTimeout.value}
    ensures st.shakeTimeout.Some? && st.shakeTimeout.value.id < st.nextTimerId
            ==> st.shakeTimeout.value !in r.pendingTimers
    ensures r.nextTimerId > r.shakeTimeout.value.id
  {
    var timeout := Timer(st.nextTimerId, now + DisplayMs);
    st.(pendingTimers := ClearTimeout(st.pendingTimers, st.shakeTimeout) + {timeout},
        nextTimerId := st.nextTimerId + 1,
        shakeTimeout := Some(timeout))
  }

  /** The gyroscope listener: record the reading, then trigger if the guard accepts it. */
  function OnSample(st: State, s: Sample, now: nat): (r: State)
    ensures r.gyroscopeData == s && r.subscribed == st.subscribed
    ensures !Accepts(st, s, now) ==> r == st.(gyroscopeData := s)
    ensures Accepts(st, s, now) ==>
      && r.isShaken && r.lastShakeTime == now && r.triggers == st.triggers + [now]
      && r.mySound.Some? && r.shakeTimeout.Some? && r.shakeTimeout.value.due == now + DisplayMs
      && r.shakeTimeout.value in r.pendingTimers
  {
    var recorded := st.(gyroscopeData := s);
    if Accepts(st, s, now) then
      var played := PlaySound(recorded.(isShaken := true));
      ScheduleReset(played.(lastShakeTime := now, triggers := st.triggers + [now]), now)
    else
      recorded
  }

  /** The event loop runs a timer's callback, resetShakeState, only while the timer is pending. */
  function OnTimer(st: State, t: Timer): (r: State)
    ensures t in st.pendingTimers ==> !r.isShaken && r.pendingTimers == st.pendingTimers - {t}
    ensures r.(isShaken := st.isShaken, pendingTimers := st.pendingTimers) == st
    ensures t !in st.pendingTimers ==> r == st
  {
    if t in st.pendingTimers then
      st.(pendingTimers := st.pendingTimers - {t}, isShaken := false)
    else
      st
  }

  /** Unmount: remove the listener, clear the stored timer, unload a loaded sound. */
  function OnUnmount(st: State): (r: State)
    ensures !r.subscribed && r.pendingTimers <= st.pendingTimers
    ensures st.shakeTimeout.Some? ==> st.shakeTimeout.value !in r.pendingTimers
    ensures r.isShaken == st.isShaken && r.lastShakeTime == st.lastShakeTime
    ensures r.mySound == st.mySound && r.triggers == st.triggers
  {
    st.(subscribed := false,
        pendingTimers := ClearTimeout(st.pendingTimers, st.shakeTimeout),
        audioLog := if st.mySound.Some? then st.audioLog + [UnloadAsync] else st.audioLog)
  }

  /** One event. A removed listener receives no readings, and unmounting happens once. */
  function Step(st: State, e: Event): (r: State)
    ensures r.triggers == st.triggers || (e.Reading? && st.subscribed && r.triggers == st.triggers + [e.now])
    ensures !st.subscribed ==> !r.subscribed
  {
    match e
    case Reading(data, now) => if st.subscribed then OnSample(st, data, now) else st
    case Fire(t) => OnTimer(st, t)
    case Unmount => if st.subscribed then OnUnmount(st) else st
  }

  /** Replay a sequence of events. The history of accepted shakes only grows,
      and an unmounted component stays unmounted. */
  function Run(st: State, evs: seq<Event>): (r: State)
    ensures |st.triggers| <= |r.triggers| && r.triggers[..|st.triggers|] == st.triggers
    ensures !st.subscribed ==> !r.subscribed
    decreases |evs|
  {
    if evs == [] then st else Run(Step(st, evs[0]), evs[1..])
  }

  // ---------------------------------------------------------------------------
  // The audio calls a run makes

  /** The stop-and-replay pairs of `n` later shakes. */
  function Replays(n: nat): seq<AudioCall>
  {
    if n == 0 then [] else Replays(n - 1) + [StopAsync, ReplayAsync]
  }

  /** The audio calls after `shakes` accepted shakes, and after unmounting when `unmounted`. */
  function AudioHistory(shakes: nat, unmounted: bool): seq<AudioCall>
  {
    if shakes == 0 then []
    else [CreateAsync(PercussionAsset), PlayAsync] + Replays(shakes - 1)
         + (if unmounted then [UnloadAsync] else [])
  }

  /** How many times the sound was loaded. */
  function Loads(log: seq<AudioCall>): nat
  {
    if log == [] then 0 else (if log[0].CreateAsync? then 1 else 0) + Loads(log[1..])
  }

  /** How many times playback was started, fresh or from the start. */
  function Plays(log: seq<AudioCall>): nat
  {
    if log == [] then 0 else (if log[0].PlayAsync? || log[0].ReplayAsync? then 1 else 0) + Plays(log[1..])
  }

  /** Any two accepted shakes are more than the cooldown apart. */
  ghost predicate Spaced(times: seq<nat>)
  {
    forall i, j :: 0 <= i < j < |times| ==> times[j] - times[i] > CooldownMs
  }

  /** What every reachable state satisfies. */
  ghost predicate Inv(st: State)
  {
    // at most one reset timer is outstanding, and it is the stored one
    && (forall t :: t in st.pendingTimers ==> st.shakeTimeout == Some(t))
    // every handle was handed out by setTimeout before
    && (st.shakeTimeout.Some? ==> st.shakeTimeout.value.id < st.nextTimerId)
    && (forall t :: t in st.pendingTimers ==> t.due == st.lastShakeTime + DisplayMs)
    // while mounted, shaken exactly when a reset is outstanding; unmounted, nothing is outstanding
    && (st.subscribed ==> (st.isShaken <==> st.pendingTimers != {}))
    && (!st.subscribed ==> st.pendingTimers == {})
    // the accepted shakes
    && (st.isShaken ==> st.triggers != [])
    && Spaced(st.triggers)
    && st.lastShakeTime == (if st.triggers == [] then 0 else st.triggers[|st.triggers| - 1])
    // the sound
    && (st.mySound.Some? <==> st.triggers != [])
    && (st.mySound.Some? ==> st.mySound.value == Sound(PercussionAsset))
    && st.audioLog == AudioHistory(|st.triggers|, !st.subscribed)
  }

  // ---------------------------------------------------------------------------
  // Lemmas about the audio calls

  lemma {:induction false} CountsConcat(a: seq<AudioCall>, b: seq<AudioCall>)
    ensures Loads(a + b) == Loads(a) + Loads(b)
    ensures Plays(a + b) == Plays(a) + Plays(b)
  {
    if a == [] {
      assert a + b == b;
    } else {
      assert (a + b)[1..] == a[1..] + b;
      CountsConcat(a[1..], b);
    }
  }

  lemma {:induction false} ReplaysCounts(n: nat)
    ensures Loads(Replays(n)) == 0 && Plays(Replays(n)) == n
  {
    if n > 0 {
      ReplaysCounts(n - 1);
      CountsConcat(Replays(n - 1), [StopAsync, ReplayAsync]);
    }
  }

  /** The sound is loaded once, by the first shake, and played once per accepted shake. */
  lemma AudioHistoryCounts(shakes: nat, unmounted: bool)
    ensures Loads(AudioHistory(shakes, unmounted)) == (if shakes == 0 then 0 else 1)
    ensures Plays(AudioHistory(shakes, unmounted)) == shakes
  {
    if shakes > 0 {
      var first: seq<AudioCall> := [CreateAsync(PercussionAsset), PlayAsync];
      var last: seq<AudioCall> := if unmounted then [UnloadAsync] else [];
      ReplaysCounts(shakes - 1);
      CountsConcat(first, Replays(shakes - 1));
      CountsConcat(first + Replays(shakes - 1), last);
    }
  }

  /** playSound loads only when there is no sound yet, and always starts playback once. */
  lemma PlaySoundLoadsOnlyWithoutHandle(st: State)
    ensures PlaySound(st).mySound.Some?
    ensures st.mySound.Some? ==> PlaySound(st).mySound == st.mySound
    ensures Loads(PlaySound(st).audioLog) == Loads(st.audioLog) + (if st.mySound.None? then 1 else 0)
    ensures Plays(PlaySound(st).audioLog) == Plays(st.audioLog) + 1
  {
    if st.mySound.Some? {
      var calls: seq<AudioCall> := [StopAsync, ReplayAsync];
      assert calls[1..] == [ReplayAsync] && calls[1..][1..] == [];
      assert Loads(calls) == 0 && Plays(calls) == 1;
      assert PlaySound(st).audioLog == st.audioLog + calls;
      CountsConcat(st.audioLog, calls);
    } else {
      var calls: seq<AudioCall> := [CreateAsync(PercussionAsset), PlayAsync];
      assert calls[0].CreateAsync? && calls[1..] == [PlayAsync] && calls[1..][1..] == [];
      assert Loads(calls[1..]) == 0 && Plays(calls[1..]) == 1;
      assert PlaySound(st).audioLog == st.audioLog + calls;
      CountsConcat(st.audioLog, calls);
    }
  }

  // ---------------------------------------------------------------------------
  // One event at a time

  /** A reading below the threshold only records the reading, whatever the time. */
  lemma QuietSampleOnlyRecorded(st: State, s: Sample, now: nat)
    requires !IsShake(s)
    ensures OnSample(st, s, now) == st.(gyroscopeData := s)
  {
  }

  /** A shake inside the cooldown, or while already shaken, only records the reading. */
  lemma BlockedShakeOnlyRecorded(st: State, s: Sample, now: nat)
    requires now - st.lastShakeTime <= CooldownMs || st.isShaken
    ensures OnSample(st, s, now) == st.(gyroscopeData := s)
  {
  }

  /** An accepted shake: shaken, stamped with `now`, and exactly one fresh reset timer outstanding. */
  lemma AcceptedShake(st: State, s: Sample, now: nat)
    requires Inv(st) && st.subscribed && Accepts(st, s, now)
    ensures var r := OnSample(st, s, now);
      && r.isShaken && r.lastShakeTime == now && r.gyroscopeData == s
      && r.shakeTimeout == Some(Timer(st.nextTimerId, now + DisplayMs))
      && r.pendingTimers == {Timer(st.nextTimerId, now + DisplayMs)}
      && r.triggers == st.triggers + [now]
      && r.mySound == Some(Sound(PercussionAsset))
      && (st.shakeTimeout.Some? ==> st.shakeTimeout.value.id < r.shakeTimeout.value.id)
  {
    assert st.pendingTimers == {};
  }

  /** The clearTimeout before scheduling never cancels a live timer: when a shake is
      accepted the previous reset has already run. */
  lemma ClearedTimerAlreadyRan(st: State, s: Sample, now: nat)
    requires Inv(st) && st.subscribed && Accepts(st, s, now)
    ensures st.pendingTimers == {}
  {
  }

  /** While mounted and shaken, exactly one reset is outstanding, due `DisplayMs` after the
      last accepted shake; running it clears the flag and changes nothing else of the component. */
  lemma ResetOutstanding(st: State)
    requires Inv(st) && st.subscribed && st.isShaken
    ensures st.shakeTimeout.Some?
    ensures var t := st.shakeTimeout.value;
      && st.pendingTimers == {t}
      && t.due == st.lastShakeTime + DisplayMs
      && Step(st, Fire(t)) == st.(isShaken := false, pendingTimers := {})
  {
    var t :| t in st.pendingTimers;
    assert st.shakeTimeout == Some(t);
    assert st.pendingTimers == {t} by {
      forall u | u in st.pendingTimers ensures u == t {
        assert st.shakeTimeout == Some(u);
      }
    }
  }

  /** At most one reset timer is outstanding at any time. */
  lemma AtMostOneTimer(st: State)
    requires Inv(st)
    ensures |st.pendingTimers| <= 1
  {
    if st.pendingTimers != {} {
      var t :| t in st.pendingTimers;
      assert st.pendingTimers <= {t} by {
        forall u | u in st.pendingTimers ensures u == t {
          assert st.shakeTimeout == Some(u) && st.shakeTimeout == Some(t);
        }
      }
      assert st.pendingTimers == {t};
    }
  }

  /** Unmounting removes the listener and leaves no reset timer outstanding. */
  lemma UnmountCancelsReset(st: State)
    requires Inv(st) && st.subscribed
    ensures var r := Step(st, Unmount);
      && !r.subscribed && r.pendingTimers == {}
      && r.isShaken == st.isShaken && r.lastShakeTime == st.lastShakeTime
      && r.audioLog == (if st.mySound.Some? then st.audioLog + [UnloadAsync] else st.audioLog)
  {
    AtMostOneTimer(st);
    if st.pendingTimers != {} {
      var t :| t in st.pendingTimers;
      assert st.shakeTimeout == Some(t);
    }
  }

  lemma OnSamplePreservesInv(st: State, s: Sample, now: nat)
    requires Inv(st) && st.subscribed
    ensures Inv(OnSample(st, s, now))
  {
    if Accepts(st, s, now) {
      var r := OnSample(st, s, now);
      AcceptedShake(st, s, now);
      var n := |st.triggers|;
      assert |r.triggers| == n + 1;
      // the new shake is more than the cooldown after every earlier one
      forall i, j | 0 <= i < j < |r.triggers| ensures r.triggers[j] - r.triggers[i] > CooldownMs {
        if j == n {
          assert r.triggers[i] == st.triggers[i];
          if i < n - 1 {
            assert st.triggers[n - 1] - st.triggers[i] > CooldownMs;
          }
        }
      }
      // the audio calls
      if n == 0 {
        assert r.audioLog == [CreateAsync(PercussionAsset), PlayAsync];
      } else {
        assert r.audioLog == AudioHistory(n, false) + [StopAsync, ReplayAsync];
        assert Replays(n) == Replays(n - 1) + [StopAsync, ReplayAsync];
      }
    }
  }

  lemma StepPreservesInv(st: State, e: Event)
    requires Inv(st)
    ensures Inv(Step(st, e))
  {
    match e
    case Reading(data, now) =>
      if st.subscribed { OnSamplePreservesInv(st, data, now); }
    case Fire(t) =>
      if t in st.pendingTimers {
        assert st.subscribed;
        ResetOutstanding(st);
      }
    case Unmount =>
      if st.subscribed {
        UnmountCancelsReset(st);
        if st.triggers != [] {
          var n := |st.triggers|;
          assert AudioHistory(n, true) == AudioHistory(n, false) + [UnloadAsync];
        }
      }
  }

  // ---------------------------------------------------------------------------
  // Whole runs

  lemma {:induction false} RunPreservesInv(st: State, evs: seq<Event>)
    requires Inv(st)
    ensures Inv(Run(st, evs))
    decreases |evs|
  {
    if evs != [] {
      StepPreservesInv(st, evs[0]);
      RunPreservesInv(Step(st, evs[0]), evs[1..]);
    }
  }

  /** In every run from mount, any two accepted shakes are more than the cooldown apart. */
  lemma CooldownBetweenShakes(evs: seq<Event>, i: nat, j: nat)
    requires i < j < |Run(Init(), evs).triggers|
    ensures Run(Init(), evs).triggers[j] - Run(Init(), evs).triggers[i] > CooldownMs
  {
    RunPreservesInv(Init(), evs);
  }

  /** In every run from mount, the sound is loaded at most once (exactly once if any shake
      was accepted) and playback starts once per accepted shake. */
  lemma SoundLoadedOnce(evs: seq<Event>)
    ensures var r := Run(Init(), evs);
      && Loads(r.audioLog) == (if r.triggers == [] then 0 else 1)
      && Plays(r.audioLog) == |r.triggers|
  {
    var r := Run(Init(), evs);
    RunPreservesInv(Init(), evs);
    AudioHistoryCounts(|r.triggers|, !r.subscribed);
  }

  /** Readings alone never end the "SHAKE!" state: only the reset timer does. */
  lemma {:induction false} ShakenUntilReset(st: State, evs: seq<Event>)
    requires st.isShaken
    requires forall k :: 0 <= k < |evs| ==> evs[k].Reading?
    ensures Run(st, evs).isShaken
    ensures Run(st, evs).lastShakeTime == st.lastShakeTime
    ensures Run(st, evs).pendingTimers == st.pendingTimers
    ensures Run(st, evs).triggers == st.triggers
    decreases |evs|
  {
    if evs != [] {
      ShakenUntilReset(Step(st, evs[0]), evs[1..]);
    }
  }

  /** Readings below the threshold change nothing but the recorded reading. */
  lemma {:induction false} QuietRunOnlyRecords(st: State, evs: seq<Event>)
    requires forall k :: 0 <= k < |evs| ==> evs[k].Reading? && !IsShake(evs[k].data)
    ensures Run(st, evs).(gyroscopeData := st.gyroscopeData) == st
    decreases |evs|
  {
    if evs != [] {
      QuietRunOnlyRecords(Step(st, evs[0]), evs[1..]);
    }
  }

  /** After unmounting nothing happens any more: no reading is delivered and no reset runs. */
  lemma {:induction false} NothingAfterUnmount(st: State, evs: seq<Event>)
    requires Inv(st) && !st.subscribed
    ensures Run(st, evs) == st
    decreases |evs|
  {
    if evs != [] {
      assert Step(st, evs[0]) == st;
      NothingAfterUnmount(st, evs[1..]);
    }
  }

  /** With the initial `lastShakeTime` of 0, a shake in the first 1500 ms of the clock is refused. */
  lemma EarlyShakeRefused(s: Sample, now: nat)
    requires now <= CooldownMs
    ensures !Accepts(Init(), s, now)
  {
  }

  /** A trace: quiet, shake (accepted), shake inside the cooldown (ignored), the reset, quiet,
      shake after the cooldown (accepted, the sound replays). Times are offset by 10 s. */
  lemma ExampleTrace()
    ensures var r := Run(Init(), [
        Reading(Sample(0.0, 0.0, 0.0), 10000),
        Reading(Sample(1.5, 0.0, 0.0), 10100),
        Reading(Sample(1.5, 0.0, 0.0), 10800),
        Fire(Timer(1, 11300)),
        Reading(Sample(0.0, 0.0, 0.0), 11300),
        Reading(Sample(1.6, 0.0, 0.0), 11700)]);
      && r.isShaken && r.lastShakeTime == 11700 && r.triggers == [10100, 11700]
      && r.pendingTimers == {Timer(2, 12900)}
      && r.audioLog == [CreateAsync(PercussionAsset), PlayAsync, StopAsync, ReplayAsync]
  {
  }
}
