/**
 The character's animation clips, their positions in the loaded clip list, and
 the playback command the controller issues to the animation player.
 */
module Clips {
  import opened Wrappers

  datatype Animations = Idle | RunForward | RunBackward | TurnLeft | TurnRight | Attack | Jump

  /** Position of each clip in the list of animations the model file provides. */
  function Index(a: Animations): (i: nat)
    ensures i < 7
  {
    match a
    case Idle => 1
    case RunForward => 4
    case RunBackward => 3
    case TurnLeft => 5
    case TurnRight => 6
    case Attack => 2
    case Jump => 0
  }

  /** The clip stored at position `i`, if any. */
  function AtIndex(i: nat): (r: Option<Animations>)
    ensures r.Some? <==> i < 7
    ensures r.Some? ==> Index(r.value) == i
  {
    if i == 0 then Some(Jump)
    else if i == 1 then Some(Idle)
    else if i == 2 then Some(Attack)
    else if i == 3 then Some(RunBackward)
    else if i == 4 then Some(RunForward)
    else if i == 5 then Some(TurnLeft)
    else if i == 6 then Some(TurnRight)
    else None
  }

  /** The table is a bijection between the seven clips and positions 0..6. */
  lemma IndexRoundTrip(a: Animations, b: Animations)
    ensures AtIndex(Index(a)) == Some(a)
    ensures Index(a) == Index(b) ==> a == b
  {
  }

  /**
   Root motion is either not requested by the command (the player is left to
   whatever it does without a request) or requested on the named bone path.
   */
  datatype RootMotion = NoRootMotionRequest | OnBone(path: seq<string>)

  /** The hip bone of the rig, below the armature root. */
  const HipsPath: seq<string> := ["Armature", "mixamorig:Hips"]

  /** Play `clip`, blending from the current clip over `blend` nanoseconds (0: no blend). */
  datatype Command = Play(clip: Animations, blend: nat, repeat: bool, rootMotion: RootMotion)
}
