/**
 * The simulation-player frame's debounce: whenever the "next" control is seen
 * disabled, the pending click timer is replaced by a new 10000 ms one, whose
 * firing clicks play/pause once. Attribute mutations are calls of
 * `MutationCallback` with the control's `disabled` state; the timer firing is
 * a call of `Fire`.
 */
module SimulationPlayer {
  import opened Wrappers

  /** Delay of the play/pause timer. */
  const PlayDelayMs: nat := 10000

  class SimulationPlayerContext {
    var timeoutId: Option<nat>
    /** The host's pending timers set by this context, with their delays. */
    var timers: map<nat, nat>
    /** The handle the host gives the next `setTimeout`. */
    var nextHandle: nat
    /** Clicks on the play/pause control so far. */
    var playPauseClicks: nat

    /** Armed exactly when `timeoutId` names a pending timer; idle otherwise. */
    ghost predicate Valid()
      reads this
    {
      && 0 < nextHandle
      && (timeoutId.Some? ==> 0 < timeoutId.value < nextHandle)
      && timers == (if timeoutId.Some? then map[timeoutId.value := PlayDelayMs] else map[])
    }

    predicate Armed()
      reads this
    {
      timeoutId.Some?
    }

    /** The two states agree with the host: armed means one pending timer, idle means none. */
    lemma ArmedMeansOneTimer()
      requires Valid()
      ensures Armed() ==> |timers| == 1
      ensures !Armed() ==> |timers| == 0
    {
      if Armed() {
        assert timers.Keys == {timeoutId.value};
      }
    }

    constructor ()
      ensures Valid() && !Armed() && timers == map[] && playPauseClicks == 0
    {
      timeoutId := None;
      timers := map[];
      nextHandle := 1;
      playPauseClicks := 0;
    }

    /**
     * An attribute of the "next" control changed. If it is disabled, any
     * pending timer is cancelled and exactly one new one is armed; otherwise
     * nothing changes.
     */
    method MutationCallback(nextDisabled: bool)
      requires Valid()
      modifies this`timeoutId, this`timers, this`nextHandle
      ensures Valid()
      ensures nextDisabled ==>
        timeoutId == Some(old(nextHandle)) && timers == map[old(nextHandle) := PlayDelayMs] &&
        (old(timeoutId).Some? ==> old(timeoutId).value !in timers)
      ensures !nextDisabled ==>
        timeoutId == old(timeoutId) && timers == old(timers) && nextHandle == old(nextHandle)
    {
      if nextDisabled {
        if timeoutId.Some? {
          timers := timers - {timeoutId.value};
          timeoutId := None;
        }
        var id := nextHandle;
        timers := timers[id := PlayDelayMs];
        nextHandle := nextHandle + 1;
        timeoutId := Some(id);
      }
    }

    /** The armed timer fires: one click on play/pause, and the context is idle again. */
    method Fire()
      requires Valid() && Armed()
      modifies this`timeoutId, this`timers, this`playPauseClicks
      ensures Valid() && !Armed() && timers == map[]
      ensures playPauseClicks == old(playPauseClicks) + 1
    {
      timers := timers - {timeoutId.value};
      playPauseClicks := playPauseClicks + 1;
      timeoutId := None;
    }
  }

  /**
   * Three "ready" observations in a row, with a "busy" one between them,
   * leave a single armed timer, so the quiet window ends in one click.
   */
  method DebounceSession()
  {
    var player := new SimulationPlayerContext();
    player.MutationCallback(true);
    player.MutationCallback(false);
    player.MutationCallback(true);
    player.MutationCallback(true);
    player.ArmedMeansOneTimer();
    assert |player.timers| == 1;
    player.Fire();
    assert player.playPauseClicks == 1 && !player.Armed();
    player.MutationCallback(false);
    assert !player.Armed();
  }
}
