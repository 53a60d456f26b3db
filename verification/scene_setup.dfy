/**
 The start-up system that spawns the character's scene once its model file has
 loaded, and then starts the idle clip once the character's animation player
 exists. Its two frame-surviving flags only ever go from false to true.
 */
module SceneSetup {
  import opened Wrappers
  import opened Clips

  datatype SetupState = SetupState(spawned: bool, animated: bool)

  /** Whether the model file has loaded, and whether exactly one animation player exists. */
  datatype SetupInput = SetupInput(sceneLoaded: bool, playerPresent: bool)

  /**
   `spawnScene`: the scene is spawned and the clip list is stored as a resource;
   `play`: the command sent to the animation player, if any. `SetupPanic`
   stands for the program aborting.
   */
  datatype SetupFrame = SetupPanic | SetupNext(state: SetupState, spawnScene: bool, play: Option<Command>)

  /** The idle clip, started without a blend and on repeat. */
  const StartIdle: Command := Play(Idle, 0, true, NoRootMotionRequest)

  const SetupInitial: SetupState := SetupState(false, false)

  /** Started animating only after spawning. */
  predicate SetupInv(s: SetupState)
  {
    s.animated ==> s.spawned
  }

  /**
   One frame. The clip list stored while spawning becomes visible only in a
   later frame, so a player present in the spawning frame itself makes the
   program abort on the missing clip list.
   */
  function SetupStep(s: SetupState, i: SetupInput): (r: SetupFrame)
    ensures r.SetupPanic? <==> !s.spawned && !s.animated && i.sceneLoaded && i.playerPresent
    ensures r.SetupNext? ==> (s.spawned ==> r.state.spawned) && (s.animated ==> r.state.animated)
    ensures r.SetupNext? ==> (r.spawnScene <==> !s.spawned && r.state.spawned)
    ensures r.SetupNext? ==> (r.play.Some? <==> !s.animated && r.state.animated)
    ensures r.SetupNext? && r.play.Some? ==> r.play == Some(StartIdle)
    ensures r.SetupNext? ==> (r.state.spawned <==> s.spawned || i.sceneLoaded)
    ensures r.SetupNext? && !s.animated ==> (r.state.animated <==> r.state.spawned && i.playerPresent)
    ensures r.SetupNext? && SetupInv(s) ==> SetupInv(r.state)
  {
    var spawnScene := !s.spawned && i.sceneLoaded;
    var spawned := s.spawned || spawnScene;
    if spawned && !s.animated && i.playerPresent then
      if spawnScene then SetupPanic
      else SetupNext(SetupState(true, true), false, Some(StartIdle))
    else
      SetupNext(SetupState(spawned, s.animated), spawnScene, None)
  }

  /** A player appears only after the scene was spawned in an earlier frame. */
  lemma NoPanicOnceSpawned(s: SetupState, i: SetupInput)
    requires i.playerPresent ==> s.spawned
    ensures SetupStep(s, i).SetupNext?
  {
  }

  datatype SetupTrace = SetupCrashed | SetupRan(final: SetupState, spawns: nat, idlePlays: nat)

  function SetupRun(s: SetupState, inputs: seq<SetupInput>): SetupTrace
    decreases |inputs|
  {
    if |inputs| == 0 then SetupRan(s, 0, 0)
    else match SetupStep(s, inputs[0])
      case SetupPanic => SetupCrashed
      case SetupNext(s', spawn, play) =>
        match SetupRun(s', inputs[1..])
        case SetupCrashed => SetupCrashed
        case SetupRan(fin, n, m) =>
          SetupRan(fin, n + (if spawn then 1 else 0), m + (if play.Some? then 1 else 0))
  }

  /**
   Over any run, the scene is spawned at most once and the idle clip is started
   at most once: each happens exactly when its flag turns on, and flags never
   turn off.
   */
  lemma {:induction false} SpawnAndPlayOnce(s: SetupState, inputs: seq<SetupInput>)
    requires SetupInv(s)
    ensures var t := SetupRun(s, inputs);
      t.SetupRan? ==>
        && SetupInv(t.final)
        && (s.spawned ==> t.final.spawned) && (s.animated ==> t.final.animated)
        && t.spawns == (if t.final.spawned && !s.spawned then 1 else 0)
        && t.idlePlays == (if t.final.animated && !s.animated then 1 else 0)
    decreases |inputs|
  {
    if |inputs| > 0 {
      var r := SetupStep(s, inputs[0]);
      if r.SetupNext? {
        SpawnAndPlayOnce(r.state, inputs[1..]);
      }
    }
  }
}
