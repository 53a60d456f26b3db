/**
 A model of the engine's one-shot countdown timer (`Timer` in `TimerMode::Once`),
 with time measured in whole nanoseconds. The engine's implementation is not part
 of this model; its behaviour on a tick is stated here as the rules below.
 */
module Timers {

  datatype Timer = Timer(duration: nat, elapsed: nat, paused: bool, finished: bool, justFinished: bool)
  {
    /** Elapsed time never passes the duration; only a finished timer can have just finished. */
    predicate Valid()
    {
      && elapsed <= duration
      && (finished ==> elapsed == duration)
      && (justFinished ==> finished)
    }

    /** Counting down: neither finished nor paused. */
    predicate Running()
    {
      !finished && !paused
    }

    function Pause(): (t: Timer)
      ensures t.paused
      ensures t == this.(paused := true)
    {
      this.(paused := true)
    }

    function Unpause(): (t: Timer)
      ensures !t.paused
      ensures t == this.(paused := false)
    {
      this.(paused := false)
    }

    /**
     Advance by `delta` nanoseconds. A paused timer does not move, a timer that
     has already finished stays finished, and `justFinished` holds exactly on the
     tick at which the elapsed time reaches the duration; elapsed time is then
     clamped to the duration.
     */
    function Tick(delta: nat): (t: Timer)
      ensures t.duration == duration && t.paused == paused
      ensures paused || finished ==> t == this.(justFinished := false)
      ensures t.justFinished <==> !paused && !finished && elapsed + delta >= duration
      ensures t.finished <==> finished || t.justFinished
      ensures !t.finished ==> t.elapsed == elapsed + (if paused then 0 else delta)
      ensures Valid() ==> t.Valid() && elapsed <= t.elapsed
    {
      if paused || finished then
        this.(justFinished := false)
      else if elapsed + delta >= duration then
        this.(elapsed := duration, finished := true, justFinished := true)
      else
        this.(elapsed := elapsed + delta, justFinished := false)
    }
  }

  /** A fresh, unpaused timer that has not started counting. */
  function NewTimer(duration: nat): (t: Timer)
    ensures t.Valid() && t.Running() && !t.justFinished
    ensures t.duration == duration && t.elapsed == 0
  {
    Timer(duration, 0, false, false, false)
  }

  /** The default timer has zero duration, so its first tick finishes it. */
  const DefaultTimer: Timer := NewTimer(0)

  /** The default timer just finishes on its first tick, and on no tick after that. */
  lemma DefaultFinishesOnFirstTick(delta: nat)
    ensures DefaultTimer.Tick(delta).justFinished
    ensures forall later: nat :: !DefaultTimer.Tick(delta).Tick(later).justFinished
    ensures forall later: nat :: DefaultTimer.Tick(delta).Tick(later).finished
  {
  }
}
