/**
 The moment the first sound finishes loading.

 `playSound` is not awaited: the gyroscope listener returns while the sound is
 still being created, and the loaded sound is stored with `setMySound` later.
 `mySound` is one of the dependencies of the effect that registers the
 listener, so storing it re-renders the component and re-runs that effect; the
 re-run starts with the previous run's cleanup, and that cleanup clears the
 timer handle its own render saw: the reset timer the accepted shake has just
 scheduled.  Module Detector treats `playSound` as completing inside the
 listener, so no such re-run happens there.
 */
module SoundLoad {
  import opened Detector

  /** As written: the sound is stored, and the effect cleanup this triggers
      cancels the stored reset timer. */
  function StoreSoundAsWritten(st: State): (r: State)
    ensures r.mySound == Some(Sound(PercussionAsset)) && r.isShaken == st.isShaken
    ensures r.pendingTimers <= st.pendingTimers
    ensures st.shakeTimeout.Some? ==> st.shakeTimeout.value !in r.pendingTimers
  {
    st.(mySound := Some(Sound(PercussionAsset)),
        pendingTimers := ClearTimeout(st.pendingTimers, st.shakeTimeout))
  }

  /** Corrected: storing the sound leaves the outstanding reset alone (the timer
      handle is cleared only when the component unmounts). */
  function StoreSound(st: State): (r: State)
    ensures r.mySound == Some(Sound(PercussionAsset)) && r.isShaken == st.isShaken
    ensures r.pendingTimers == st.pendingTimers && r.shakeTimeout == st.shakeTimeout
  {
    st.(mySound := Some(Sound(PercussionAsset)))
  }

  /** Shaken with no reset outstanding: nothing can ever end the "SHAKE!" state. */
  predicate Stuck(st: State)
  {
    st.isShaken && st.pendingTimers == {}
  }

  lemma {:induction false} StuckForever(st: State, evs: seq<Event>)
    requires Stuck(st)
    ensures Stuck(Run(st, evs)) && Run(st, evs).triggers == st.triggers
    decreases |evs|
  {
    if evs != [] {
      StuckForever(Step(st, evs[0]), evs[1..]);
    }
  }

  /** The first shake, 2 s after the clock's origin, is accepted; if its sound is
      stored before the reset runs, the reset never runs, the screen keeps showing
      "SHAKE!" and no later shake is ever accepted. */
  lemma FirstLoadCancelsReset(evs: seq<Event>)
    ensures var shaken := Run(Init(), [Reading(Sample(2.0, 0.0, 0.0), 2000)]);
      && shaken.isShaken && shaken.pendingTimers == {Timer(1, 3200)}
      && var after := Run(StoreSoundAsWritten(shaken), evs);
         after.isShaken && after.triggers == [2000]
  {
    var shaken := Run(Init(), [Reading(Sample(2.0, 0.0, 0.0), 2000)]);
    assert shaken == Step(Init(), Reading(Sample(2.0, 0.0, 0.0), 2000));
    assert shaken.pendingTimers == {Timer(1, 3200)};
    StuckForever(StoreSoundAsWritten(shaken), evs);
  }

  /** With the correction, storing the sound keeps every invariant: in particular
      the one reset is still outstanding, due `DisplayMs` after the shake. */
  lemma StoreSoundKeepsReset(st: State)
    requires Inv(st) && st.subscribed && st.isShaken
    ensures Inv(StoreSound(st))
    ensures StoreSound(st).shakeTimeout == st.shakeTimeout
    ensures StoreSound(st).pendingTimers == {st.shakeTimeout.value}
    ensures st.shakeTimeout.value.due == st.lastShakeTime + DisplayMs
  {
    ResetOutstanding(st);
    assert StoreSound(st) == st;
  }
}
