/**
 Properties of the keyboard controller: what gates a new action, what each
 press does, the invariant that keeps a turn's rotation from being lost, and
 what a run of frames without input does to a one-shot action and a turn.
 */
module KeyboardProps {
  import opened Wrappers
  import opened Timers
  import opened Directions
  import opened Clips
  import opened Input
  import opened Keyboard

  /**
   No new action may start this frame: the action timer is still counting, has
   only now finished, or the turn's rotation is still under way.
   */
  predicate Gated(s: KeyboardState, delta: nat)
  {
    var t := s.timer.Tick(delta);
    !t.finished || t.justFinished || s.rotation.timer.Tick(delta).Running()
  }

  /** The frame starts a run, a turn, an attack or a jump. */
  predicate StartsAction(r: Frame)
  {
    r.Next? && r.command.Some? && r.command.value.clip != Idle
  }

  /** The frame in which the action timer runs out reverts to idle and releases the turn's rotation. */
  lemma ActionTimerFinishing(s: KeyboardState, f: FrameInput)
    requires !StopEdge(f.released) && !s.somethingPressed
    requires s.timer.Tick(f.delta).justFinished
    ensures var r := Step(s, f); var t := s.timer.Tick(f.delta);
      && t.finished
      && (f.playerPresent ==>
            r == Next(s.(timer := t, rotation := s.rotation.(timer := s.rotation.timer.Unpause())), Some(RevertIdle), Still))
      && (!f.playerPresent ==> r == Next(s.(timer := t), None, Still))
  {
  }

  /** While gated, a frame starts nothing and leaves the facing and the busy flag alone. */
  lemma GatingBlocksActions(s: KeyboardState, f: FrameInput)
    requires !StopEdge(f.released) && Gated(s, f.delta)
    ensures var r := Step(s, f);
      && (r.Panic? ==> !f.playerPresent)
      && (r.Next? ==> !StartsAction(r) && r.state.direction == s.direction
                      && r.state.somethingPressed == s.somethingPressed)
  {
  }

  /** With long enough clips, an action starts exactly when nothing blocks it and some action key was pressed. */
  lemma ActionStartsIff(s: KeyboardState, f: FrameInput)
    requires LongClips(f.clips)
    ensures StartsAction(Step(s, f)) <==>
      && !StopEdge(f.released) && !s.somethingPressed && !Gated(s, f.delta)
      && f.playerPresent && Classify(f.pressed) != NoPress
  {
  }

  /** The conditions under which a frame reaches the press checks. */
  predicate Open(s: KeyboardState, f: FrameInput)
  {
    !StopEdge(f.released) && !s.somethingPressed && !Gated(s, f.delta) && f.playerPresent && LongClips(f.clips)
  }

  /** A turn press sets both timers, advances the facing one step, and leaves the busy flag clear. */
  lemma TurnPress(s: KeyboardState, f: FrameInput)
    requires Open(s, f)
    requires Classify(f.pressed) == PressLeft || Classify(f.pressed) == PressRight
    ensures var r := Step(s, f); var left := Classify(f.pressed) == PressLeft;
      && r.Next?
      && r.command == Some(Play(if left then TurnLeft else TurnRight, ActionBlend, false, NoRootMotionRequest))
      && r.state.timer.Running() && r.state.timer.elapsed == 0
      && r.state.timer.duration + TransitionDelay == (if left then f.clips.turnLeft else f.clips.turnRight)
      && r.state.timer.Valid() && !r.state.timer.justFinished
      && r.state.rotation == NewRotation(left)
      && r.state.rotation.isLeft == left
      && r.state.rotation.timer.paused && !r.state.rotation.timer.finished
      && r.state.rotation.timer.duration == TransitionDelay && r.state.rotation.timer.elapsed == 0
      && r.state.direction == (if left then LeftOf(s.direction) else RightOf(s.direction))
      && !r.state.somethingPressed
  {
  }

  /** A forward or backward press starts a looping run on root motion and sets the busy flag, and nothing else. */
  lemma RunPress(s: KeyboardState, f: FrameInput)
    requires Open(s, f)
    requires Classify(f.pressed) == PressForward || Classify(f.pressed) == PressBackward
    ensures var r := Step(s, f); var fwd := Classify(f.pressed) == PressForward;
      && r.Next?
      && r.command == Some(Play(if fwd then RunForward else RunBackward, RunBlend, true, OnBone(HipsPath)))
      && r.state.somethingPressed
      && r.state.direction == s.direction
      && r.state.timer == s.timer.Tick(f.delta)
      && r.state.rotation == s.rotation.(timer := s.rotation.timer.Tick(f.delta))
  {
  }

  /** An attack or a jump only restarts the action timer. */
  lemma OneShotPress(s: KeyboardState, f: FrameInput)
    requires Open(s, f)
    requires Classify(f.pressed) == PressAttack || Classify(f.pressed) == PressJump
    ensures var r := Step(s, f); var attack := Classify(f.pressed) == PressAttack;
      && r.Next?
      && r.command == Some(Play(if attack then Attack else Jump, ActionBlend, false, NoRootMotionRequest))
      && r.state.timer.Running() && r.state.timer.elapsed == 0
      && r.state.timer.duration + TransitionDelay == (if attack then f.clips.attack else f.clips.jump)
      && r.state.direction == s.direction
      && r.state.rotation == s.rotation.(timer := s.rotation.timer.Tick(f.delta))
      && !r.state.somethingPressed
  {
  }

  /**
   The visual rotation of a turn only runs after the action timer has finished,
   in the turn's own sense, and it ends by snapping to the facing chosen when
   the turn started.
   */
  lemma RotationFollowsActionTimer(s: KeyboardState, f: FrameInput)
    ensures var r := Step(s, f);
      && (r.Next? && r.motion.Rotate? ==>
            s.timer.finished && r.motion.left == s.rotation.isLeft && r.command == None
            && s.rotation.timer.Running() && r.state.direction == s.direction)
      && (r.Next? && r.motion.Snap? ==>
            s.timer.finished && s.rotation.timer.Tick(f.delta).justFinished
            && r.motion.quarters == SnapQuarter(s.direction))
  {
  }

  /** Both timers are well formed, and a paused rotation is always waiting for an unfinished action timer. */
  predicate Inv(s: KeyboardState)
  {
    && s.timer.Valid()
    && s.rotation.timer.Valid()
    && (s.rotation.timer.paused ==> !s.timer.finished)
  }

  lemma InitialInv()
    ensures Inv(Initial)
  {
  }

  /**
   Every frame keeps the invariant, except one without the character in which a
   paused rotation waits for the action timer (see `MissingPlayerStrandsRotation`).
   */
  lemma StepKeepsInv(s: KeyboardState, f: FrameInput)
    requires Inv(s) && (f.playerPresent || !s.rotation.timer.paused)
    ensures Step(s, f).Next? ==> Inv(Step(s, f).state)
  {
  }

  /** A turn's rotation left paused behind an action timer that has already finished. */
  predicate Stranded(s: KeyboardState)
  {
    s.rotation.timer.paused && s.timer.finished
  }

  /**
   If the character is missing in the very frame the action timer runs out,
   the turn's rotation is left paused behind the finished action timer.
   */
  lemma MissingPlayerStrandsRotation(s: KeyboardState, f: FrameInput)
    requires Inv(s) && !s.somethingPressed && s.rotation.timer.paused
    requires !StopEdge(f.released) && !f.playerPresent && s.timer.Tick(f.delta).justFinished
    ensures Step(s, f).Next? && Stranded(Step(s, f).state) && !Inv(Step(s, f).state)
  {
  }

  /**
   A stranded rotation stays paused, and the character is never rotated, over
   any run of frames in which no turn, attack or jump is pressed.
   */
  lemma {:induction false} StrandedUntilNextAction(s: KeyboardState, fs: seq<FrameInput>)
    requires Stranded(s)
    requires forall i :: 0 <= i < |fs| ==> Classify(fs[i].pressed) in {PressForward, PressBackward, NoPress}
    ensures var t := Run(s, fs);
      t.Ran? ==> Stranded(t.final) && forall i :: 0 <= i < |t.outputs| ==> !t.outputs[i].motion.Rotate?
  {
    if |fs| > 0 {
      var pre := fs[..|fs| - 1];
      assert forall i :: 0 <= i < |pre| ==> pre[i] == fs[i];
      StrandedUntilNextAction(s, pre);
    }
  }

  /**
   An attack or a jump ends the stranding: it restarts the action timer, and
   the paused rotation again waits for it, so the frame in which that timer
   runs out unpauses the rotation.
   */
  lemma StrandedResumesAfterOneShot(s: KeyboardState, f: FrameInput)
    requires Stranded(s) && s.timer.Valid() && s.rotation.timer.Valid()
    requires Open(s, f)
    requires Classify(f.pressed) == PressAttack || Classify(f.pressed) == PressJump
    ensures Step(s, f).Next? && Inv(Step(s, f).state) && Step(s, f).state.rotation.timer.paused
  {
  }

  /** What one frame shows: the animation command and the transform motion. */
  datatype Output = Output(command: Option<Command>, motion: Motion)

  datatype Trace = Crashed | Ran(final: KeyboardState, outputs: seq<Output>)

  /** Feed the frames in order; the last frame is stepped last. */
  function Run(s: KeyboardState, fs: seq<FrameInput>): (t: Trace)
    ensures t.Ran? ==> |t.outputs| == |fs|
  {
    if |fs| == 0 then Ran(s, [])
    else match Run(s, fs[..|fs| - 1])
      case Crashed => Crashed
      case Ran(m, outs) =>
        match Step(m, fs[|fs| - 1])
        case Panic => Crashed
        case Next(m', c, mo) => Ran(m', outs + [Output(c, mo)])
  }

  /** Continue a trace with more frames. */
  function Then(t: Trace, fs: seq<FrameInput>): Trace
  {
    match t
    case Crashed => Crashed
    case Ran(m, outs) =>
      match Run(m, fs)
      case Crashed => Crashed
      case Ran(m', outs') => Ran(m', outs + outs')
  }

  /** Running two stretches of frames back to back is running their concatenation. */
  lemma {:induction false} RunConcat(s: KeyboardState, a: seq<FrameInput>, b: seq<FrameInput>)
    ensures Run(s, a + b) == Then(Run(s, a), b)
    decreases |b|
  {
    if |b| == 0 {
      assert a + b == a;
    } else {
      var b' := b[..|b| - 1];
      assert (a + b)[..|a + b| - 1] == a + b';
      assert (a + b)[|a + b| - 1] == b[|b| - 1];
      RunConcat(s, a, b');
      match Run(s, a)
      case Crashed =>
      case Ran(m, outs) =>
        match Run(m, b')
        case Crashed =>
        case Ran(m', outs') =>
          match Step(m', b[|b| - 1])
          case Panic =>
          case Next(m'', c, mo) =>
            assert outs + (outs' + [Output(c, mo)]) == (outs + outs') + [Output(c, mo)];
    }
  }

  /** Total time of a run of frames. */
  function Elapsed(fs: seq<FrameInput>): nat
  {
    if |fs| == 0 then 0 else Elapsed(fs[..|fs| - 1]) + fs[|fs| - 1].delta
  }

  /** A frame with no key edges in which the character exists. */
  predicate Quiet(f: FrameInput)
  {
    f.pressed == {} && f.released == {} && f.playerPresent
  }

  /** While the action timer has time left, frames without input only count it down. */
  lemma {:induction false} QuietCountdown(s: KeyboardState, fs: seq<FrameInput>)
    requires !s.somethingPressed && s.timer.Valid() && s.timer.Running()
    requires forall i :: 0 <= i < |fs| ==> Quiet(fs[i])
    requires |fs| == 0 || s.timer.elapsed + Elapsed(fs) < s.timer.duration
    ensures Run(s, fs) == Ran(s.(timer := s.timer.(elapsed := s.timer.elapsed + Elapsed(fs))),
                              seq(|fs|, _ => Output(None, Still)))
  {
    if |fs| > 0 {
      var pre := fs[..|fs| - 1];
      assert forall i :: 0 <= i < |pre| ==> Quiet(pre[i]);
      QuietCountdown(s, pre);
      assert seq(|pre|, _ => Output(None, Still)) + [Output(None, Still)] == seq(|fs|, _ => Output(None, Still));
    }
  }

  /**
   A one-shot action reverts to idle by itself: frames without input issue no
   command until the one in which the action timer's remaining time runs out,
   which plays idle with the one-second blend and releases any pending rotation.
   */
  lemma AutoRevert(s: KeyboardState, fs: seq<FrameInput>, last: FrameInput)
    requires !s.somethingPressed && s.timer.Valid() && s.timer.Running()
    requires forall i :: 0 <= i < |fs| ==> Quiet(fs[i])
    requires Quiet(last)
    requires |fs| == 0 || s.timer.elapsed + Elapsed(fs) < s.timer.duration
    requires s.timer.duration <= s.timer.elapsed + Elapsed(fs) + last.delta
    ensures var t := Run(s, fs + [last]);
      && t.Ran?
      && t.outputs == seq(|fs|, _ => Output(None, Still)) + [Output(Some(RevertIdle), Still)]
      && t.final == s.(timer := s.timer.(elapsed := s.timer.duration, finished := true, justFinished := true),
                       rotation := s.rotation.(timer := s.rotation.timer.Unpause()))
  {
    var all := fs + [last];
    assert all[..|all| - 1] == fs;
    QuietCountdown(s, fs);
  }

  /**
   The state after frames `fs` of a turn's rotation: the rotation has counted
   their time, and the action timer no longer reports that it just finished.
   */
  function Rotated(s: KeyboardState, fs: seq<FrameInput>): KeyboardState
  {
    s.(timer := s.timer.(justFinished := s.timer.justFinished && |fs| == 0),
       rotation := s.rotation.(timer := s.rotation.timer.(elapsed := s.rotation.timer.elapsed + Elapsed(fs))))
  }

  /** After the action timer, frames without input turn the character step by step in the turn's sense. */
  lemma {:induction false} QuietRotation(s: KeyboardState, fs: seq<FrameInput>)
    requires !s.somethingPressed && s.timer.finished
    requires s.rotation.timer.Valid() && s.rotation.timer.Running()
    requires forall i :: 0 <= i < |fs| ==> Quiet(fs[i])
    requires |fs| == 0 || s.rotation.timer.elapsed + Elapsed(fs) < s.rotation.timer.duration
    ensures Run(s, fs) == Ran(Rotated(s, fs), seq(|fs|, _ => Output(None, Rotate(s.rotation.isLeft))))
  {
    if |fs| > 0 {
      var pre := fs[..|fs| - 1];
      assert forall i :: 0 <= i < |pre| ==> Quiet(pre[i]);
      QuietRotation(s, pre);
      var o := Output(None, Rotate(s.rotation.isLeft));
      assert seq(|pre|, _ => o) + [o] == seq(|fs|, _ => o);
    }
  }

  /**
   The turn's rotation ends in the frame its timer runs out, by snapping the
   orientation to the facing the turn chose; no command is issued.
   */
  lemma RotationEndsInSnap(s: KeyboardState, fs: seq<FrameInput>, last: FrameInput)
    requires !s.somethingPressed && s.timer.finished
    requires s.rotation.timer.Valid() && s.rotation.timer.Running()
    requires forall i :: 0 <= i < |fs| ==> Quiet(fs[i])
    requires Quiet(last)
    requires |fs| == 0 || s.rotation.timer.elapsed + Elapsed(fs) < s.rotation.timer.duration
    requires s.rotation.timer.duration <= s.rotation.timer.elapsed + Elapsed(fs) + last.delta
    ensures var t := Run(s, fs + [last]);
      && t.Ran?
      && t.outputs == seq(|fs|, _ => Output(None, Rotate(s.rotation.isLeft)))
                      + [Output(None, Snap(SnapQuarter(s.direction)))]
      && t.final == s.(timer := s.timer.(justFinished := false),
                       rotation := s.rotation.(timer := s.rotation.timer.(
                         elapsed := s.rotation.timer.duration, finished := true, justFinished := true)))
  {
    var all := fs + [last];
    assert all[..|all| - 1] == fs;
    QuietRotation(s, fs);
  }

  /** The length of the clip a turn press plays. */
  function TurnClip(f: FrameInput): nat
  {
    if Classify(f.pressed) == PressLeft then f.clips.turnLeft else f.clips.turnRight
  }

  /**
   A whole turn, from the press to the snap: the turn clip plays, quiet frames
   count the action timer down to the clip length minus one second, the frame
   in which it runs out reverts to idle and releases the rotation, quiet frames
   rotate the character in the turn's sense for one second, and the frame in
   which that second runs out snaps it to the new facing, one step from the old.
   */
  lemma WholeTurn(s: KeyboardState, f: FrameInput, fs: seq<FrameInput>, g: FrameInput,
                  hs: seq<FrameInput>, h: FrameInput)
    requires Open(s, f)
    requires Classify(f.pressed) == PressLeft || Classify(f.pressed) == PressRight
    requires forall i :: 0 <= i < |fs| ==> Quiet(fs[i])
    requires forall i :: 0 <= i < |hs| ==> Quiet(hs[i])
    requires Quiet(g) && Quiet(h)
    requires |fs| == 0 || Elapsed(fs) + TransitionDelay < TurnClip(f)
    requires TurnClip(f) <= Elapsed(fs) + g.delta + TransitionDelay
    requires |hs| == 0 || Elapsed(hs) < TransitionDelay
    requires TransitionDelay <= Elapsed(hs) + h.delta
    ensures var left := Classify(f.pressed) == PressLeft;
      var facing := if left then LeftOf(s.direction) else RightOf(s.direction);
      var t := Run(s, [f] + fs + [g] + hs + [h]);
      && t.Ran?
      && t.outputs == [Output(Some(Play(if left then TurnLeft else TurnRight, ActionBlend, false, NoRootMotionRequest)),
                              Step(s, f).motion)]
                      + seq(|fs|, _ => Output(None, Still))
                      + [Output(Some(RevertIdle), Still)]
                      + seq(|hs|, _ => Output(None, Rotate(left)))
                      + [Output(None, Snap(SnapQuarter(facing)))]
      && t.final.direction == facing && !t.final.somethingPressed
      && t.final.timer.finished && t.final.rotation.timer.finished && !t.final.rotation.timer.paused
  {
    var left := Classify(f.pressed) == PressLeft;
    TurnPress(s, f);
    RunOne(s, f);
    var r := Step(s, f);
    TurnAfterPress(r.state, left, fs, g, hs, h);
    RunConcat(s, [f], fs + [g] + hs + [h]);
    Regroup([f], fs, [g], hs, [h]);
    Regroup([Output(r.command, r.motion)], seq(|fs|, _ => Output(None, Still)), [Output(Some(RevertIdle), Still)],
            seq(|hs|, _ => Output(None, Rotate(left))), [Output(None, Snap(SnapQuarter(r.state.direction)))]);
  }

  lemma Regroup<T>(a: seq<T>, b: seq<T>, c: seq<T>, d: seq<T>, e: seq<T>)
    ensures a + b + c + d + e == a + (b + c + d + e)
  {
  }

  /** The part of a whole turn after the press frame. */
  lemma TurnAfterPress(s: KeyboardState, left: bool, fs: seq<FrameInput>, g: FrameInput,
                       hs: seq<FrameInput>, h: FrameInput)
    requires !s.somethingPressed && s.timer.Valid() && s.timer.Running() && s.timer.elapsed == 0
    requires s.rotation == NewRotation(left)
    requires forall i :: 0 <= i < |fs| ==> Quiet(fs[i])
    requires forall i :: 0 <= i < |hs| ==> Quiet(hs[i])
    requires Quiet(g) && Quiet(h)
    requires |fs| == 0 || Elapsed(fs) < s.timer.duration
    requires s.timer.duration <= Elapsed(fs) + g.delta
    requires |hs| == 0 || Elapsed(hs) < TransitionDelay
    requires TransitionDelay <= Elapsed(hs) + h.delta
    ensures var t := Run(s, fs + [g] + hs + [h]);
      && t.Ran?
      && t.outputs == seq(|fs|, _ => Output(None, Still))
                      + [Output(Some(RevertIdle), Still)]
                      + seq(|hs|, _ => Output(None, Rotate(left)))
                      + [Output(None, Snap(SnapQuarter(s.direction)))]
      && t.final.direction == s.direction && !t.final.somethingPressed
      && t.final.timer.finished && t.final.rotation.timer.finished && !t.final.rotation.timer.paused
  {
    AutoRevert(s, fs, g);
    var o2 := seq(|fs|, _ => Output(None, Still)) + [Output(Some(RevertIdle), Still)];
    var s2 := s.(timer := s.timer.(elapsed := s.timer.duration, finished := true, justFinished := true),
                 rotation := s.rotation.(timer := s.rotation.timer.Unpause()));
    assert s2.rotation.timer == NewTimer(TransitionDelay);
    RotationEndsInSnap(s2, hs, h);
    var o3 := seq(|hs|, _ => Output(None, Rotate(left))) + [Output(None, Snap(SnapQuarter(s.direction)))];
    Chain(s, fs + [g], hs + [h], s2, o2, Run(s2, hs + [h]).final, o3);
    Pair(fs, [g], hs, [h]);
    Pair(seq(|fs|, _ => Output(None, Still)), [Output(Some(RevertIdle), Still)],
         seq(|hs|, _ => Output(None, Rotate(left))), [Output(None, Snap(SnapQuarter(s.direction)))]);
  }

  /** Two stretches of frames, run one after the other. */
  lemma Chain(s: KeyboardState, a: seq<FrameInput>, b: seq<FrameInput>,
              s1: KeyboardState, o1: seq<Output>, s2: KeyboardState, o2: seq<Output>)
    requires Run(s, a) == Ran(s1, o1) && Run(s1, b) == Ran(s2, o2)
    ensures Run(s, a + b) == Ran(s2, o1 + o2)
  {
    RunConcat(s, a, b);
  }

  lemma Pair<T>(a: seq<T>, b: seq<T>, c: seq<T>, d: seq<T>)
    ensures a + b + c + d == (a + b) + (c + d)
  {
  }

  /** A run of one frame is that frame's step. */
  lemma RunOne(s: KeyboardState, f: FrameInput)
    ensures Step(s, f).Next? ==>
      Run(s, [f]) == Ran(Step(s, f).state, [Output(Step(s, f).command, Step(s, f).motion)])
  {
    assert [f][..0] == [];
  }

}
