# Shake detector of the L12Demo app, in Dafny

The app is one React Native component (`App.js`). It listens to the
gyroscope, and when a reading shows a shake it turns the screen orange with
the word "SHAKE!" and plays a percussion sound. A shake is a reading whose
x, y or z value has magnitude above 1. It is accepted only when more than
1500 ms have passed since the last accepted shake and the screen is not
already in the "SHAKE!" state. An accepted shake does four things: it sets
`isShaken`, plays the sound, stamps `lastShakeTime` and replaces the reset
timer. That timer clears `isShaken` 1200 ms later. The first accepted shake
loads the sound; later ones stop it and replay it. When the component
unmounts, the listener is removed and the stored timer is cleared.

The project has three modules:

- `Detector` (detector.dfy) is the state machine over values. `State` holds
  the component's five hook values. It also holds what the platform keeps
  for the component: whether the listener is registered, the timers the
  event loop will still run, the next timer handle, the calls made into the
  audio library, and the times of the accepted shakes. There is one
  function per event (`OnSample`, `OnTimer`, `OnUnmount`). `Step` and `Run`
  replay events. `Inv` is the invariant every run keeps, and the lemmas
  state the detector's promises about single events and about whole runs.
- `ShakeApp` (app.dfy) is the component as a class, `App`. Its fields are
  updated in place by one method per event handler: `OnReading` (the
  gyroscope listener), `OnTimerFires` (the event loop running the reset
  timer) and `Unmount` (the effect cleanups). It also has the helpers
  `PlaySound`, `ResetShakeState`, `SetTimeout` and `ClearTimeout`. Each
  handler is proved to do what the matching `Detector` function does and to
  keep `Detector.Inv`. The listener's accepted branch is split into
  `Trigger` and `ReplaceResetTimer`.
- `SoundLoad` (sound_load.dfy) models what happens when the first sound
  finishes loading, as the code is written and as corrected (see Findings).

Time is an explicit `nat` parameter in milliseconds where the code calls
`Date.now()`; timestamps, due times and the constants are `nat` too. Gyroscope values are `real`: they are only compared against 1.
The timer queue of the event loop is a set of `Timer(id, due)` records.
Clearing a timer removes it from the set, and a `Fire` event for a timer
that is not in the set does nothing. The audio library is a log of the calls
made into it.

`lastShakeTime` starts at 0 (App.js:23), not at "never". So a shake is
refused while the clock reads 1500 ms or less (`Detector.EarlyShakeRefused`).
With `Date.now()` this never matters. A trace whose clock starts at 0,
though, must wait past 1500 ms before its first shake is accepted.
`Detector.ExampleTrace` therefore starts its clock at 10 s.

## Model

| member | source | states |
|---|---|---|
| `Detector.Abs` | App.js:52 | `Math.abs`: the result is non-negative and equals the value or its negation |
| `Detector.ClearTimeout` | App.js:59-61 | clearing the stored handle, when there is one, removes exactly that timer from the outstanding timers |
| `Detector.Init` | App.js:20-24 | the initial hook values (not shaken, last shake at 0, no timer, no sound, reading 0,0,0) with the listener registered; its contract: the state satisfies the invariant |
| `Detector.IsShake` | App.js:52 | a reading is a shake exactly when some axis lies outside [-1, 1]; the lemmas `QuietSampleOnlyRecorded` and `QuietRunOnlyRecords` state what a non-shake does |
| `Detector.Accepts` | App.js:52-53 | the listener's guard; its contract lists the three ways a reading is refused (no shake, within 1500 ms of the last shake, already shaken); `BlockedShakeOnlyRecorded` and `ClearedTimerAlreadyRan` state the consequences |
| `Detector.PlaySound` | App.js:27-38 | a sound is stored afterwards and a stored one is never replaced; two calls are appended to the audio log and nothing else changes; `PlaySoundLoadsOnlyWithoutHandle` states that it loads only without a stored sound |
| `Detector.ScheduleReset` | App.js:59-66 | the stored handle becomes a new timer with the next handle, due 1200 ms after now, and it is outstanding; no other timer is added, and the previously stored handle is no longer outstanding; `AcceptedShake` and `AtMostOneTimer` state the single-timer consequence |
| `Detector.OnSample` | App.js:47-68 | the listener: the reading is always recorded; a refused reading changes nothing else; an accepted one sets the flag, stamps now, stores the sound and leaves its new timer outstanding; `AcceptedShake`, `BlockedShakeOnlyRecorded`, `QuietSampleOnlyRecorded` and `OnSamplePreservesInv` state the rest |
| `Detector.OnTimer` | App.js:63-65 | a pending timer runs once: it leaves the pending set and the flag is cleared, nothing else changes; a timer that is not pending does nothing; `ResetOutstanding` ties it to the stored handle |
| `Detector.OnUnmount` | App.js:74-80 | removes the listener; the stored timer is no longer outstanding and none is added; the flag, timestamp, sound and shake history are kept; `UnmountCancelsReset` and `NothingAfterUnmount` state the rest |
| `Detector.Step` | App.js:41-80 | one event; the shake history grows only by the time of a reading delivered while mounted, and an unmounted component stays unmounted; `StepPreservesInv` states that it keeps the invariant |
| `Detector.Run` | App.js:19-91 | a sequence of events; the shake history is only ever extended and unmounting is permanent; `RunPreservesInv`, `CooldownBetweenShakes` and `SoundLoadedOnce` state the whole-run properties |
| `Detector.QuietSampleOnlyRecorded` | App.js:48-52 | a reading with every axis within magnitude 1 only replaces the recorded reading, at any time |
| `Detector.BlockedShakeOnlyRecorded` | App.js:52-53 | a reading within 1500 ms of the last accepted shake, or while shaken, only replaces the recorded reading |
| `Detector.AcceptedShake` | App.js:52-66 | an accepted shake sets `isShaken`, stamps `lastShakeTime` with now, stores the sound, and leaves exactly one outstanding timer: a fresh handle due 1200 ms later |
| `Detector.ClearedTimerAlreadyRan` | App.js:59-61 | whenever a shake is accepted, no reset timer is outstanding, so the clearTimeout before scheduling never cancels a live timer |
| `Detector.ResetOutstanding` | App.js:63-65 | while mounted and shaken, the stored timer is the only outstanding one and is due 1200 ms after the last shake; running it clears `isShaken` and changes nothing else |
| `Detector.AtMostOneTimer` | App.js:59-66 | in every state satisfying the invariant, at most one reset timer is outstanding |
| `Detector.UnmountCancelsReset` | App.js:74-80 | unmounting removes the listener and leaves no timer outstanding; the flag and timestamp are untouched and a loaded sound is unloaded |
| `Detector.PlaySoundLoadsOnlyWithoutHandle` | App.js:27-38 | playSound loads the sound only when none is stored, never replaces a stored one, and always starts playback exactly once |
| `Detector.AudioHistoryCounts` | App.js:27-38 | the audio calls of n accepted shakes contain one load if n > 0 (none otherwise) and n playback starts |
| `Detector.OnSamplePreservesInv` | App.js:47-68 | the gyroscope listener keeps the invariant: one timer tied to the stored handle, shaken exactly while a reset is outstanding, accepted shakes spaced by more than 1500 ms, audio calls as expected |
| `Detector.StepPreservesInv` | App.js:41-80 | every event (reading, timer callback, unmount) keeps the invariant |
| `Detector.RunPreservesInv` | App.js:19-91 | every sequence of events keeps the invariant |
| `Detector.CooldownBetweenShakes` | App.js:52-56 | in every run from mount, any two accepted shakes are more than 1500 ms apart |
| `Detector.SoundLoadedOnce` | App.js:27-38 | in every run from mount, the sound is loaded at most once (exactly once if any shake was accepted) and playback starts once per accepted shake |
| `Detector.ShakenUntilReset` | App.js:52-53 | no sequence of readings ends the "SHAKE!" state or changes the timestamp, timers or accepted shakes: only the reset timer clears the flag |
| `Detector.QuietRunOnlyRecords` | App.js:48-52 | any sequence of readings within the threshold changes nothing but the recorded reading |
| `Detector.NothingAfterUnmount` | App.js:74-80 | after unmounting, no event changes anything: no reading is delivered and no reset runs |
| `Detector.EarlyShakeRefused` | App.js:23 | because `lastShakeTime` starts at 0, no shake is accepted while the clock reads 1500 ms or less |
| `Detector.ExampleTrace` | App.js:47-68 | quiet, shake, shake in cooldown, reset, quiet, shake: two accepted shakes, sound loaded and played then stopped and replayed, one timer outstanding |
| `ShakeApp.App.constructor` | App.js:20-24 | the object starts in the initial detector state with the listener registered at a 100 ms interval |
| `ShakeApp.App.PlaySound` | App.js:27-38 | the first call loads, stores and plays the sound; later calls stop and replay the stored sound; the load count grows only when no sound was stored |
| `ShakeApp.App.ResetShakeState` | App.js:41-43 | clears `isShaken` and nothing else |
| `ShakeApp.App.SetTimeout` | App.js:63-66 | registers one new outstanding timer with a fresh handle, due after the delay |
| `ShakeApp.App.ClearTimeout` | App.js:59-61 | the cleared timer is no longer outstanding; the others are untouched |
| `ShakeApp.App.ReplaceResetTimer` | App.js:59-66 | clears the stored timer, registers a new one due 1200 ms after now, and stores its handle |
| `ShakeApp.App.Trigger` | App.js:54-66 | the accepted branch: raises the flag, plays the sound, stamps the time and replaces the reset timer, as `Detector.OnSample` does for an accepted reading |
| `ShakeApp.App.OnReading` | App.js:47-68 | records the reading; a rejected reading changes nothing else; an accepted one sets the flag, stamps the time, stores the sound and leaves only its new timer outstanding; keeps the invariant |
| `ShakeApp.App.OnTimerFires` | App.js:63-65 | the outstanding timer runs once: the flag is cleared, nothing is outstanding, and the timestamp, sound and reading are unchanged; keeps the invariant |
| `ShakeApp.App.Unmount` | App.js:74-91 | removes the listener, leaves no timer outstanding, unloads a loaded sound, and keeps the flag and timestamp; keeps the invariant |
| `SoundLoad.StoreSoundAsWritten` | App.js:74-81 | as written: storing the loaded sound (line 35) stores it and, through the effect cleanup, leaves the stored timer no longer outstanding; the flag is untouched |
| `SoundLoad.StoreSound` | App.js:35 | corrected: storing the loaded sound leaves the flag, the stored handle and the outstanding timers as they are |
| `SoundLoad.StuckForever` | App.js:52-53 | shaken with no reset outstanding, no sequence of events clears the flag or accepts another shake |
| `SoundLoad.FirstLoadCancelsReset` | App.js:74-81 | as written: after the first accepted shake, storing the loaded sound cancels the reset, and the flag then stays set forever with no further shake accepted |
| `SoundLoad.StoreSoundKeepsReset` | App.js:35 | corrected: storing the sound keeps the invariant, and the one reset stays outstanding, due 1200 ms after the shake |

## Findings

| source | as written | input that shows it | evidently intended | confidence | as-written member | corrected member |
|---|---|---|---|---|---|---|
| App.js:74-81 | `mySound` is a dependency of the listener effect. When the first sound finishes loading and is stored (line 35), the effect re-runs. The previous run's cleanup then clears the timer handle of its render, which is the reset timer the shake just scheduled. | first shake accepted at 2000 ms; the sound is stored before the reset is due at 3200 ms | the reset runs 1200 ms after every accepted shake; storing the sound leaves it alone | medium, not executed | `SoundLoad.FirstLoadCancelsReset` | `SoundLoad.StoreSoundKeepsReset` |

Outside module `SoundLoad`, the model lets `playSound` finish inside the
listener, and it re-runs no effect. That is the corrected behaviour: the
reset guarantee itself is `Detector.ResetOutstanding` together with the
invariant kept by every run. In a state that satisfies the invariant and is
shaken, the sound is already stored, so `SoundLoad.StoreSound` leaves such a
state unchanged, and `SoundLoad.StoreSoundKeepsReset` only restates that
guarantee for the corrected store.

## Left out

- Rendering and styles (App.js:6-17, 93-98). The view only projects `isShaken`.
- The gyroscope and audio libraries themselves. Their calls are modelled as
  events (readings) and as entries in the audio call log. Every audio call
  is assumed to succeed. The code handles no failures: `playSound` is not
  awaited, so a failed load or playback only rejects a promise.
- Asynchrony. `playSound` completes inside the listener. The one
  consequence of the late `setMySound` that matters is modelled in
  `SoundLoad`. A second shake accepted before the first load completes
  could load the sound twice. `Detector.SoundLoadedOnce` does not cover
  that case, because in the model a load completes at once.
- React hook mechanics: batching of state updates, and stale closures. The
  listener always sees the current state. Each re-run of the listener
  effect on a dependency change (App.js:81) removes and re-adds the
  listener. Apart from `SoundLoad`, that re-run is modelled as leaving the
  listener registered and the timers untouched.
- The `console.log` in the unload cleanup (App.js:87). Only its
  `unloadAsync` call is modelled, on unmount. That is the only time this
  cleanup runs, because `mySound` is set once.
- Real time. A timer records the time it is due, but the model does not
  order timer callbacks against the times of the readings: a `Fire` event
  may come at any point in a run. The properties hold for every order,
  and none of them relies on the clock being monotonic.
- `setUpdateInterval(100)` (App.js:72) is only recorded as a field of the
  object, since the model receives readings as events.
- The truthiness test on the timer handle (App.js:59, 77) is modelled as
  `Some`/`None`. Handles start at 1, so a stored handle is never falsy.
