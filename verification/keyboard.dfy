/**
 The per-frame character controller: one call of `Step` is one run of the
 keyboard system. The system's frame-surviving locals form `KeyboardState`;
 the frame's key edges, its time delta, the clip lengths and whether the
 animated character exists form `FrameInput`; what the system does to the
 animation player and to the character's transform is returned as a `Frame`.
 */
module Keyboard {
  import opened Wrappers
  import opened Timers
  import opened Directions
  import opened Clips
  import opened Input

  /** The fixed overlap reserved at the end of an action: one second. */
  const TransitionDelay: nat := 1_000_000_000
  /** Blend used when starting or stopping a run: a quarter second. */
  const RunBlend: nat := 250_000_000
  /** Blend used when starting a turn, an attack or a jump: half a second. */
  const ActionBlend: nat := 500_000_000

  /** The turn in progress: its own timer and its sense. */
  datatype RootMotionRotation = RootMotionRotation(timer: Timer, isLeft: bool)

  datatype KeyboardState = KeyboardState(
    somethingPressed: bool,
    timer: Timer,
    rotation: RootMotionRotation,
    direction: Direction)

  /** Lengths, in nanoseconds, of the four clips whose length the controller reads. */
  datatype ClipLengths = ClipLengths(turnLeft: nat, turnRight: nat, attack: nat, jump: nat)

  datatype FrameInput = FrameInput(
    pressed: set<Key>,
    released: set<Key>,
    delta: nat,
    clips: ClipLengths,
    playerPresent: bool)

  /** What happens to the character's transform this frame. */
  datatype Motion =
    | Still
      /** An incremental turn about the vertical axis, positive when `left`. */
    | Rotate(left: bool)
      /** The orientation is set to `quarters` quarter turns about the vertical axis. */
    | Snap(quarters: nat)

  /** `Panic` stands for the program aborting the frame (and the application). */
  datatype Frame = Panic | Next(state: KeyboardState, command: Option<Command>, motion: Motion)

  /** Every local starts at its default. */
  const Initial: KeyboardState :=
    KeyboardState(false, DefaultTimer, RootMotionRotation(DefaultTimer, false), North)

  const StopIdle: Command := Play(Idle, RunBlend, true, NoRootMotionRequest)
  const RevertIdle: Command := Play(Idle, TransitionDelay, true, NoRootMotionRequest)

  /** All four clips are long enough to subtract the overlap from. */
  predicate LongClips(c: ClipLengths)
  {
    c.turnLeft >= TransitionDelay && c.turnRight >= TransitionDelay
    && c.attack >= TransitionDelay && c.jump >= TransitionDelay
  }

  /**
   The action timer of a clip of the given length: the clip minus the overlap.
   A negative duration makes the conversion to a duration abort, hence `None`.
   */
  function ActionTimer(clip: nat): (t: Option<Timer>)
    ensures t.Some? <==> clip >= TransitionDelay
    ensures t.Some? ==> t.value.Running() && t.value.elapsed == 0 && t.value.duration + TransitionDelay == clip
  {
    if clip < TransitionDelay then None else Some(NewTimer(clip - TransitionDelay))
  }

  /** A fresh turn: a one-second rotation timer that waits, paused, for the action timer. */
  function NewRotation(isLeft: bool): RootMotionRotation
  {
    RootMotionRotation(NewTimer(TransitionDelay).Pause(), isLeft)
  }

  /** The action started by the winning press of the frame, if the player exists. */
  function Dispatch(s: KeyboardState, f: FrameInput, m: Motion): (r: Frame)
    ensures Classify(f.pressed) == NoPress ==> r == Next(s, None, m)
    ensures r.Panic? <==> Classify(f.pressed) != NoPress && (!f.playerPresent || !LongEnough(f, Classify(f.pressed)))
    ensures r.Next? ==> r.motion == m
  {
    match Classify(f.pressed)
    case NoPress => Next(s, None, m)
    case press =>
      if !f.playerPresent then Panic
      else match press
        case PressForward =>
          Next(s.(somethingPressed := true), Some(Play(RunForward, RunBlend, true, OnBone(HipsPath))), m)
        case PressBackward =>
          Next(s.(somethingPressed := true), Some(Play(RunBackward, RunBlend, true, OnBone(HipsPath))), m)
        case PressLeft =>
          (match ActionTimer(f.clips.turnLeft)
           case None => Panic
           case Some(t) =>
             Next(s.(timer := t, rotation := NewRotation(true), direction := LeftOf(s.direction)),
                  Some(Play(TurnLeft, ActionBlend, false, NoRootMotionRequest)), m))
        case PressRight =>
          (match ActionTimer(f.clips.turnRight)
           case None => Panic
           case Some(t) =>
             Next(s.(timer := t, rotation := NewRotation(false), direction := RightOf(s.direction)),
                  Some(Play(TurnRight, ActionBlend, false, NoRootMotionRequest)), m))
        case PressAttack =>
          (match ActionTimer(f.clips.attack)
           case None => Panic
           case Some(t) => Next(s.(timer := t), Some(Play(Attack, ActionBlend, false, NoRootMotionRequest)), m))
        case PressJump =>
          (match ActionTimer(f.clips.jump)
           case None => Panic
           case Some(t) => Next(s.(timer := t), Some(Play(Jump, ActionBlend, false, NoRootMotionRequest)), m))
  }

  /** The clip a press reads, if any, is long enough. */
  predicate LongEnough(f: FrameInput, p: Press)
  {
    match p
    case PressLeft => f.clips.turnLeft >= TransitionDelay
    case PressRight => f.clips.turnRight >= TransitionDelay
    case PressAttack => f.clips.attack >= TransitionDelay
    case PressJump => f.clips.jump >= TransitionDelay
    case _ => true
  }

  /**
   The part of a frame after the stop edge and the busy lock: tick the action
   timer, then the rotation timer, and only then read presses.
   */
  function Advance(s: KeyboardState, f: FrameInput): Frame
  {
    var t := s.timer.Tick(f.delta);
    if t.justFinished then
      if f.playerPresent then
        Next(s.(timer := t, rotation := s.rotation.(timer := s.rotation.timer.Unpause())), Some(RevertIdle), Still)
      else
        Next(s.(timer := t), None, Still)
    else if !t.finished then
      Next(s.(timer := t), None, Still)
    else
      var rt := s.rotation.timer.Tick(f.delta);
      var s1 := s.(timer := t, rotation := s.rotation.(timer := rt));
      if rt.Running() then
        if f.playerPresent then Next(s1, None, Rotate(s.rotation.isLeft)) else Panic
      else if rt.justFinished then
        if f.playerPresent then Dispatch(s1, f, Snap(SnapQuarter(s.direction))) else Next(s1, None, Still)
      else
        Dispatch(s1, f, Still)
  }

  /** One frame of the keyboard system. */
  function Step(s: KeyboardState, f: FrameInput): (r: Frame)
    // A stop edge is honoured in any state and touches nothing but the busy flag.
    ensures StopEdge(f.released) && f.playerPresent ==>
      r == Next(s.(somethingPressed := false), Some(StopIdle), Still)
    // While a run is in progress nothing else happens, not even a timer tick.
    ensures !StopEdge(f.released) && s.somethingPressed ==> r == Next(s, None, Still)
    // The program aborts only on a missing character or a clip shorter than the overlap.
    ensures r.Panic? ==> !f.playerPresent || !LongClips(f.clips)
    // The facing moves by at most one step, and only by a turn press.
    ensures r.Next? ==>
      || r.state.direction == s.direction
      || (r.state.direction == LeftOf(s.direction) && Classify(f.pressed) == PressLeft)
      || (r.state.direction == RightOf(s.direction) && Classify(f.pressed) == PressRight)
    // Only a stop edge clears the busy flag, and only a run press sets it.
    ensures r.Next? && r.state.somethingPressed != s.somethingPressed ==>
      if s.somethingPressed then StopEdge(f.released)
      else Classify(f.pressed) in {PressForward, PressBackward}
  {
    if StopEdge(f.released) then
      if f.playerPresent then Next(s.(somethingPressed := false), Some(StopIdle), Still) else Panic
    else if s.somethingPressed then
      Next(s, None, Still)
    else
      Advance(s, f)
  }
}
