/** The state-machine camera of Scripts/MonoBehaviour/Controller/CameraController.cs: seven
    states (Default, Rotate, GravChange, Pause, Warp, Anim, Falling) wired by InitStateMachine
    on the generic state machine, a 90/180 degree rotation about the player's up axis whose
    progress is clamped to [0, 1], a gravity-change follow, and the tilt offsets.

    The camera's direction and up are modelled at rest, as axes: during a rotation or a gravity
    change the engine interpolates them in floating point (Quaternion.AngleAxis, Slerp), and the
    model records the orientation they reach when the progress reaches 1. Camera positions and
    look-at points are left out. What the camera reads from the player and the game arrives in
    a CamInputs record; what it writes to the player is recorded as an event. */
module Camera {
  import opened Axes
  import P = Player
  import U = Utils

  datatype CamState = Default | Rotate | GravChange | Pause | Warp | Anim | Falling

  /** What the camera reads during one LateUpdate. */
  datatype CamInputs = CamInputs(
    horizontal: int,           // Input.GetAxisRaw("Horizontal")
    vertical: int,             // Input.GetAxisRaw("Vertical")
    lookUp: bool,              // Input.GetButton("LookUp")
    lookDown: bool,            // Input.GetButton("LookDown")
    playerState: P.PlayerState,
    playerUp: Axis,            // PlayerController.pc.world_up
    playerDir: Axis,           // PlayerController.pc.world_direction
    gameDefault: bool,         // GameController.gc.IsDefault()
    dt: real,                  // Time.deltaTime
    partialDir: IVec           // Vector3Int.RoundToInt of a direction caught mid-rotation
  )

  /** Engine side effects. */
  datatype CamEvent =
    | PlayerDirection(dir: IVec)   // PlayerController.pc.world_direction := ...
    | IntroRestart                 // the intro animation's reset trigger

  /** The inspector values. */
  datatype CamConfig = CamConfig(
    rotSpeed: real, tiltSpeed: real, dirOffset: real, upOffset: real,
    tiltDownDir: real, tiltDownUp: real, tiltUpDir: real, tiltUpUp: real,
    startUp: Axis, startDir: Axis)

  /** A snapshot of the camera and of the fields of its nested states. */
  datatype Cam = Cam(
    state: CamState,
    up: Axis, dir: Axis,                  // m_up, m_dir at rest
    dirOffset: real, upOffset: real,      // m_dirOffset, m_upOffset
    resetSM: bool, gravChangeTrigger: bool, endIntro: bool,
    rotDirection: int, rotProgress: real, // Rotate.m_direction, Rotate.m_rotProgress
    rotStarted: bool,                     // whether Rotate's UpdateState has run since its entry
    gravProgress: real, targetUp: Axis, targetDir: Axis, // GravChange's fields
    events: seq<CamEvent>)

  // ---------------------------------------------------------------------------------------
  // Arithmetic helpers of the engine

  /** Mathf.Clamp(x, lo, hi) for lo <= hi. */
  function Clamp(x: real, lo: real, hi: real): (r: real)
    requires lo <= hi
    ensures lo <= r <= hi
    ensures lo <= x <= hi ==> r == x
    ensures x < lo ==> r == lo
    ensures x > hi ==> r == hi
  {
    if x < lo then lo else if x > hi then hi else x
  }

  /** Mathf.MoveTowards: the target if it is within maxDelta, otherwise a step of maxDelta
      towards it. */
  function MoveTowards(current: real, target: real, maxDelta: real): real {
    if U.Abs(target - current) <= maxDelta then target
    else if target - current > 0.0 then current + maxDelta
    else current - maxDelta
  }

  /** With a non-negative step, MoveTowards never overshoots and closes the gap by exactly the
      step, or entirely. */
  lemma MoveTowardsApproaches(current: real, target: real, maxDelta: real)
    requires maxDelta >= 0.0
    ensures var r := MoveTowards(current, target, maxDelta);
      && (current <= target ==> current <= r <= target)
      && (target <= current ==> target <= r <= current)
      && U.Abs(target - r) == (if U.Abs(target - current) <= maxDelta then 0.0 else U.Abs(target - current) - maxDelta)
  {
  }

  // ---------------------------------------------------------------------------------------
  // Decisions

  /** CanRotate: the player is idle, so not moving in any way. */
  function CanRotate(inp: CamInputs): (r: bool)
    ensures r ==> inp.playerState !in {P.Moving, P.Warping, P.Falling, P.GravityChange}
  {
    inp.playerState == P.Idle
  }

  /** The angle of a rotation by its direction: -90 to the left, 90 to the right, 180 for
      m_direction 0. */
  function TargetAngle(direction: int): (angle: real)
    ensures angle in {-90.0, 90.0, 180.0}
    ensures angle == 180.0 <==> direction !in {-1, 1}
  {
    if direction == -1 then -90.0 else if direction == 1 then 90.0 else 180.0
  }

  /** The walking direction a completed rotation reaches: the player's direction turned by
      TargetAngle(direction) about the player's up axis. */
  function RotationEnd(up: Axis, dir: Axis, direction: int): (r: Axis)
    requires Orthogonal(up, dir)
    ensures Orthogonal(up, r)
    ensures direction in {-1, 1} ==> Orthogonal(dir, r)
  {
    CrossOfOrthogonal(up, dir);
    CrossOfOrthogonal(dir, up);
    if direction == 1 then Cross(up, dir)
    else if direction == -1 then Cross(dir, up)
    else Neg(dir)
  }

  /** A completed rotation yields a direction still perpendicular to up; a quarter turn is
      perpendicular to the old direction and a half turn reverses it; turning right after
      turning left, or turning back twice, restores the direction. */
  lemma RotationEndIsTurn(up: Axis, dir: Axis, direction: int)
    requires Orthogonal(up, dir)
    ensures Orthogonal(up, RotationEnd(up, dir, direction))
    ensures direction in {-1, 1} ==> Orthogonal(dir, RotationEnd(up, dir, direction))
    ensures direction !in {-1, 1} ==> RotationEnd(up, dir, direction) == Neg(dir)
    ensures RotationEnd(up, RotationEnd(up, dir, -1), 1) == dir
    ensures RotationEnd(up, RotationEnd(up, dir, 0), 0) == dir
    ensures RotationEnd(up, dir, 1) == Neg(RotationEnd(up, dir, -1))
  {
    CrossOfOrthogonal(up, dir);
    CrossOfOrthogonal(up, Cross(dir, up));
  }

  /** The conditions InitStateMachine attaches to the transitions; TriggerOnly never holds. */
  datatype Guard =
    | TriggerOnly | RotInput | PlayerWarping | ResetRequested | GravChangeRequested
    | GameNotDefault | PlayerFalling | PlayerNotFalling | GameIsDefault | PlayerNotWarping
    | IntroEnded

  datatype CamTransition = CamTransition(to: CamState, guard: Guard)

  /** The transitions of each state, in the order InitStateMachine adds them. No state is
      wired to itself, Rotate is entered only on a rotation input and Anim only on a reset
      request, and Rotate and GravChange leave for Default only by the trigger their
      UpdateState pulls on its first transition. */
  function Wiring(s: CamState): (ts: seq<CamTransition>)
    ensures |ts| >= 1
    ensures forall k :: 0 <= k < |ts| ==> ts[k].to != s
    ensures forall k :: 0 <= k < |ts| ==> (ts[k].to == Rotate <==> ts[k].guard == RotInput)
    ensures forall k :: 0 <= k < |ts| && ts[k].to == Anim ==> ts[k].guard == ResetRequested
    ensures s in {Rotate, GravChange} ==> ts[0] == CamTransition(Default, TriggerOnly)
    ensures s == Rotate ==> |ts| == 1
  {
    match s
    case Default => [CamTransition(Rotate, RotInput), CamTransition(Warp, PlayerWarping),
                     CamTransition(Anim, ResetRequested), CamTransition(GravChange, GravChangeRequested),
                     CamTransition(Pause, GameNotDefault), CamTransition(Falling, PlayerFalling)]
    case Rotate => [CamTransition(Default, TriggerOnly)]
    case Warp => [CamTransition(GravChange, PlayerNotWarping), CamTransition(Pause, GameNotDefault)]
    case GravChange => [CamTransition(Default, TriggerOnly), CamTransition(Pause, GameNotDefault)]
    case Pause => [CamTransition(Default, GameIsDefault)]
    case Anim => [CamTransition(Default, IntroEnded)]
    case Falling => [CamTransition(Default, PlayerNotFalling), CamTransition(Pause, GameNotDefault)]
  }

  predicate GuardHolds(g: Guard, c: Cam, inp: CamInputs) {
    match g
    case TriggerOnly => false
    case RotInput => (inp.horizontal != 0 || inp.vertical == -1) && CanRotate(inp)
    case PlayerWarping => inp.playerState == P.Warping
    case ResetRequested => c.resetSM
    case GravChangeRequested => c.gravChangeTrigger
    case GameNotDefault => !inp.gameDefault
    case PlayerFalling => inp.playerState == P.Falling
    case PlayerNotFalling => inp.playerState != P.Falling
    case GameIsDefault => inp.gameDefault
    case PlayerNotWarping => inp.playerState != P.Warping
    case IntroEnded => c.endIntro
  }

  // ---------------------------------------------------------------------------------------
  // The nested states' hooks, on snapshots

  /** A rotation entered but not yet updated: the camera's m_dir is still the direction it
      rested on before the rotation. */
  predicate Unstarted(c: Cam) {
    c.state == Rotate && c.rotProgress < 1.0 && !c.rotStarted
  }

  /** OnExitState of the current state: Rotate resets itself and hands the rounding of the
      camera's m_dir to the player, which is the turned direction once the rotation has
      completed, the resting direction if no update has turned it yet, and the engine's
      rounding of a direction caught mid-turn otherwise; GravChange clears its request flag,
      Anim clears the end-of-intro flag. */
  function ExitSpec(c: Cam, inp: CamInputs): (r: Cam)
    requires Orthogonal(inp.playerUp, inp.playerDir)
    ensures r.state == c.state && r.up == c.up && r.dir == c.dir && r.resetSM == c.resetSM
    ensures c.state == Rotate ==> r.rotProgress == 0.0 && r.rotDirection == 0 && !r.rotStarted
    ensures c.state == Rotate && c.rotProgress >= 1.0 ==>
      r.events == c.events + [PlayerDirection(ToIVec(RotationEnd(inp.playerUp, inp.playerDir, c.rotDirection)))]
    ensures Unstarted(c) ==> r.events == c.events + [PlayerDirection(ToIVec(c.dir))]
    ensures c.state == GravChange ==> !r.gravChangeTrigger
    ensures c.state == Anim ==> !r.endIntro
    ensures c.state != GravChange ==> r.gravChangeTrigger == c.gravChangeTrigger
    ensures c.state != Rotate ==> r.rotProgress == c.rotProgress && r.rotDirection == c.rotDirection
    ensures c.state != Rotate ==> r.rotStarted == c.rotStarted && r.events == c.events
  {
    match c.state
    case Rotate =>
      var written := if c.rotProgress >= 1.0 then ToIVec(RotationEnd(inp.playerUp, inp.playerDir, c.rotDirection))
                     else if c.rotStarted then inp.partialDir
                     else ToIVec(c.dir);
      c.(rotProgress := 0.0, rotDirection := 0, rotStarted := false,
         events := c.events + [PlayerDirection(written)])
    case GravChange => c.(gravChangeTrigger := false)
    case Anim => c.(endIntro := false)
    case Default => c
    case Pause => c
    case Warp => c
    case Falling => c
  }

  /** OnEnterState of state `to`. */
  function EnterSpec(c: Cam, to: CamState, inp: CamInputs): (r: Cam)
    ensures r.state == to && r.gravChangeTrigger == c.gravChangeTrigger && r.rotProgress == c.rotProgress
    ensures to != Anim ==> r.resetSM == c.resetSM
    ensures to != Rotate ==> r.rotDirection == c.rotDirection
  {
    match to
    case Default => c.(state := Default, up := inp.playerUp, dir := inp.playerDir)
    case Rotate =>
      c.(state := Rotate,
         rotDirection := if inp.horizontal == -1 then -1 else if inp.horizontal == 1 then 1 else c.rotDirection)
    case Warp => c.(state := Warp, up := inp.playerUp, dir := inp.playerDir)
    case GravChange =>
      c.(state := GravChange, gravProgress := 0.0, targetUp := inp.playerUp, targetDir := inp.playerDir)
    case Anim => c.(state := Anim, resetSM := false, events := c.events + [IntroRestart])
    case Pause => c.(state := Pause)
    case Falling => c.(state := Falling, up := inp.playerUp, dir := inp.playerDir)
  }

  /** The player's orientation as the entered state reads it after c's state has exited.
      A completed rotation has just written the turned direction into the player's
      world_direction. A rotation left in the pass that entered it, before any update, has
      written back the camera's resting direction; that direction need not be perpendicular
      to the player's up, since the camera keeps its m_dir while the player changes gravity.
      A rotation caught mid-turn is left only by Reset, for Anim, whose entry reads no
      orientation. */
  function ReadAfterExit(c: Cam, inp: CamInputs): (r: CamInputs)
    requires Orthogonal(inp.playerUp, inp.playerDir)
    ensures r == inp.(playerDir := r.playerDir)
    ensures c.state == Rotate && c.rotProgress >= 1.0 ==>
      r.playerDir == RotationEnd(inp.playerUp, inp.playerDir, c.rotDirection)
    ensures Unstarted(c) ==> r.playerDir == c.dir
    ensures c.state != Rotate || (c.rotProgress < 1.0 && c.rotStarted) ==> r == inp
    ensures !Unstarted(c) ==> Orthogonal(r.playerUp, r.playerDir)
  {
    if c.state == Rotate && c.rotProgress >= 1.0 then
      RotationEndIsTurn(inp.playerUp, inp.playerDir, c.rotDirection);
      inp.(playerDir := RotationEnd(inp.playerUp, inp.playerDir, c.rotDirection))
    else if Unstarted(c) then inp.(playerDir := c.dir)
    else inp
  }

  /** StateMachine.ChangeState: the exit of the current state, then the entry of `to`, which
      reads the player as the exit left it. */
  function ChangeStateSpec(c: Cam, to: CamState, inp: CamInputs): (r: Cam)
    requires Orthogonal(inp.playerUp, inp.playerDir)
    ensures r.state == to
    ensures to == Default ==> r.up == inp.playerUp && r.dir == ReadAfterExit(c, inp).playerDir
  {
    EnterSpec(ExitSpec(c, inp), to, ReadAfterExit(c, inp))
  }

  /** State.CheckTransitions over the remaining transitions `ts` of the state it started in:
      every transition whose condition holds fires, in order. */
  function CheckFrom(c: Cam, ts: seq<CamTransition>, inp: CamInputs): Cam
    requires Orthogonal(inp.playerUp, inp.playerDir)
    decreases |ts|
  {
    if |ts| == 0 then c else CheckFrom(Step(c, ts[0], inp), ts[1..], inp)
  }

  /** One transition of a CheckTransitions pass: it fires when its condition holds. */
  function Step(c: Cam, t: CamTransition, inp: CamInputs): Cam
    requires Orthogonal(inp.playerUp, inp.playerDir)
  {
    if GuardHolds(t.guard, c, inp) then ChangeStateSpec(c, t.to, inp) else c
  }

  /** A pass over one or two transitions, unrolled. */
  lemma ShortPass(c: Cam, ts: seq<CamTransition>, inp: CamInputs)
    requires Orthogonal(inp.playerUp, inp.playerDir) && 1 <= |ts| <= 2
    ensures |ts| == 1 ==> CheckFrom(c, ts, inp) == Step(c, ts[0], inp)
    ensures |ts| == 2 ==> CheckFrom(c, ts, inp) == Step(Step(c, ts[0], inp), ts[1], inp)
  {
    if |ts| == 2 {
      assert ts[1..][0] == ts[1] && ts[1..][1..] == [];
      assert CheckFrom(c, ts, inp) == CheckFrom(Step(c, ts[0], inp), ts[1..], inp);
    }
  }

  /** The pass over Default's six transitions, unrolled. */
  lemma DefaultPass(c: Cam, inp: CamInputs)
    requires Orthogonal(inp.playerUp, inp.playerDir)
    ensures var ts := Wiring(Default);
      CheckFrom(c, ts, inp)
      == Step(Step(Step(Step(Step(Step(c, ts[0], inp), ts[1], inp), ts[2], inp), ts[3], inp), ts[4], inp), ts[5], inp)
  {
    var ts := Wiring(Default);
    assert ts[1..][1..][1..][1..][1..][1..] == [];
  }

  /** A rotation under way is never interrupted by a transition check. */
  function CheckTransitionsSpec(c: Cam, inp: CamInputs): (r: Cam)
    requires Orthogonal(inp.playerUp, inp.playerDir)
    ensures c.state == Rotate ==> r == c
  {
    if c.state == Rotate then ShortPass(c, Wiring(Rotate), inp); CheckFrom(c, Wiring(c.state), inp)
    else CheckFrom(c, Wiring(c.state), inp)
  }

  /** Tilt: LookUp wins over LookDown; both offsets move towards the chosen pose at
      tiltSpeed. */
  function TiltSpec(cfg: CamConfig, c: Cam, inp: CamInputs): (r: Cam)
    ensures r == c.(dirOffset := r.dirOffset, upOffset := r.upOffset)
  {
    var (td, tu) := if inp.lookUp then (cfg.tiltUpDir, cfg.tiltUpUp)
                    else if inp.lookDown then (cfg.tiltDownDir, cfg.tiltDownUp)
                    else (cfg.dirOffset, cfg.upOffset);
    c.(dirOffset := MoveTowards(c.dirOffset, td, inp.dt * cfg.tiltSpeed),
       upOffset := MoveTowards(c.upOffset, tu, inp.dt * cfg.tiltSpeed))
  }

  /** A rotation's or gravity change's progress after a tick of dt: dt·rotSpeed further on,
      clamped to [0, 1]. */
  function Advance(cfg: CamConfig, progress: real, dt: real): (r: real)
    ensures 0.0 <= r <= 1.0
  {
    Clamp(progress + dt * cfg.rotSpeed, 0.0, 1.0)
  }

  /** UpdateState of the current state. Anim and Pause do nothing; Default, Warp and Falling
      only tilt; Rotate and GravChange advance their progress, clamp it and go back to Default
      when it reaches 1, having reached the end orientation, and no other update leaves its
      state. */
  function UpdateSpec(cfg: CamConfig, c: Cam, inp: CamInputs): (r: Cam)
    requires Orthogonal(inp.playerUp, inp.playerDir)
    ensures c.state in {Anim, Pause} ==> r == c
    ensures c.state in {Default, Warp, Falling} ==>
      r.state == c.state && r.up == c.up && r.dir == c.dir && r.events == c.events
    ensures r.state != c.state ==> c.state in {Rotate, GravChange} && r.state == Default
  {
    match c.state
    case Default => TiltSpec(cfg, c, inp)
    case Warp => TiltSpec(cfg, c, inp)
    case Falling => TiltSpec(cfg, c, inp)
    case Rotate =>
      var progress := Advance(cfg, c.rotProgress, inp.dt);
      var c1 := TiltSpec(cfg, c.(rotProgress := progress, rotStarted := true), inp);
      if progress >= 1.0 then ChangeStateSpec(c1, Default, inp) else c1
    case GravChange =>
      var progress := Advance(cfg, c.gravProgress, inp.dt);
      var c1 := TiltSpec(cfg, c.(gravProgress := progress), inp);
      if progress >= 1.0 then ChangeStateSpec(c1.(up := c.targetUp, dir := c.targetDir), Default, inp) else c1
    case Anim => c
    case Pause => c
  }

  /** Reset: StateMachine.Reset to the default state Anim, which does run OnExitState. */
  function ResetSpec(c: Cam, inp: CamInputs): (r: Cam)
    requires Orthogonal(inp.playerUp, inp.playerDir)
    ensures r.state == Anim && !r.resetSM
  {
    ChangeStateSpec(c, Anim, inp)
  }

  /** What the camera keeps apart from its orientation: the reset request is never raised,
      a rotation's fields are at rest outside Rotate, a rotation not yet updated has made no
      progress, and both progresses stay in [0, 1]. */
  predicate Bookkeeping(c: Cam) {
    && !c.resetSM
    && 0.0 <= c.rotProgress <= 1.0 && 0.0 <= c.gravProgress <= 1.0
    && c.rotDirection in {-1, 0, 1}
    && (c.state != Rotate ==> c.rotProgress == 0.0 && c.rotDirection == 0 && !c.rotStarted)
    && (c.state == Rotate && !c.rotStarted ==> c.rotProgress == 0.0)
  }

  /** What the camera keeps: its bookkeeping, and an orientation whose up and direction are
      perpendicular. */
  predicate Inv(c: Cam) {
    Bookkeeping(c) && Orthogonal(c.up, c.dir)
  }

  predicate InputsOk(inp: CamInputs) {
    Orthogonal(inp.playerUp, inp.playerDir) && inp.dt >= 0.0
  }

  // ---------------------------------------------------------------------------------------
  // Properties

  /** A state change keeps the invariant when it does not re-enter Rotate from Rotate. The
      states that read the player's orientation (Default, Warp, Falling) supply their own;
      the others keep the camera's, which must then be valid, and a rotation not yet updated
      is never left for the former (it would hand them the camera's resting direction). */
  lemma ChangeStateKeepsInv(c: Cam, to: CamState, inp: CamInputs)
    requires Bookkeeping(c) && InputsOk(inp)
    requires to == Rotate ==> c.state != Rotate
    requires to !in {Default, Warp, Falling} ==> Orthogonal(c.up, c.dir)
    requires to in {Default, Warp, Falling} ==> !Unstarted(c)
    ensures Inv(ChangeStateSpec(c, to, inp))
  {
  }

  /** Every state change of a CheckTransitions pass stays out of Rotate-to-Rotate, and once
      Rotate has been entered (on an idle player) the rest of the pass can reach Warp or
      Falling only on the player warping or falling, so the invariant holds after the pass. */
  lemma {:induction false} CheckFromKeepsInv(c: Cam, ts: seq<CamTransition>, inp: CamInputs)
    requires Inv(c) && InputsOk(inp)
    requires forall k :: 0 <= k < |ts| ==> ts[k].to != Rotate || ts[k].guard == RotInput
    requires |ts| > 0 && ts[0].guard == RotInput ==> c.state != Rotate
    requires forall k :: 1 <= k < |ts| ==> ts[k].guard != RotInput
    requires c.state == Rotate ==> inp.playerState == P.Idle
    requires c.state == Rotate || (|ts| > 0 && ts[0].guard == RotInput) ==>
      forall k :: 0 <= k < |ts| && ts[k].to in {Default, Warp, Falling} ==>
        ts[k].guard in {PlayerWarping, PlayerFalling}
    ensures Inv(CheckFrom(c, ts, inp))
    decreases |ts|
  {
    if |ts| > 0 {
      var c1 := Step(c, ts[0], inp);
      if GuardHolds(ts[0].guard, c, inp) { ChangeStateKeepsInv(c, ts[0].to, inp); }
      assert forall k :: 0 <= k < |ts[1..]| ==> ts[1..][k] == ts[k + 1];
      CheckFromKeepsInv(c1, ts[1..], inp);
    }
  }

  lemma CheckTransitionsKeepsInv(c: Cam, inp: CamInputs)
    requires Inv(c) && InputsOk(inp)
    ensures Inv(CheckTransitionsSpec(c, inp))
  {
    if c.state != Rotate {
      CheckFromKeepsInv(c, Wiring(c.state), inp);
    }
  }

  lemma UpdateKeepsInv(cfg: CamConfig, c: Cam, inp: CamInputs)
    requires Inv(c) && InputsOk(inp)
    ensures Inv(UpdateSpec(cfg, c, inp))
  {
    if c.state == Rotate {
      var c1 := TiltSpec(cfg, c.(rotProgress := Advance(cfg, c.rotProgress, inp.dt), rotStarted := true), inp);
      ChangeStateKeepsInv(c1, Default, inp);
    } else if c.state == GravChange {
      var c1 := TiltSpec(cfg, c.(gravProgress := Advance(cfg, c.gravProgress, inp.dt)), inp);
      ChangeStateKeepsInv(c1.(up := c.targetUp, dir := c.targetDir), Default, inp);
    }
  }

  /** The camera can never return to Anim through its transitions: the only way in is the
      reset request, which nothing raises; only Reset brings the intro back. */
  lemma {:induction false} NeverBackToAnim(cfg: CamConfig, c: Cam, inp: CamInputs)
    requires Inv(c) && InputsOk(inp) && c.state != Anim
    ensures CheckTransitionsSpec(c, inp).state != Anim
    ensures UpdateSpec(cfg, c, inp).state != Anim
  {
    CheckNeverEntersAnim(c, Wiring(c.state), inp);
  }

  lemma {:induction false} CheckNeverEntersAnim(c: Cam, ts: seq<CamTransition>, inp: CamInputs)
    requires !c.resetSM && c.state != Anim && InputsOk(inp)
    requires forall k :: 0 <= k < |ts| ==> ts[k].to != Anim || ts[k].guard == ResetRequested
    ensures CheckFrom(c, ts, inp).state != Anim
    decreases |ts|
  {
    if |ts| > 0 {
      var c1 := Step(c, ts[0], inp);
      assert forall k :: 0 <= k < |ts[1..]| ==> ts[1..][k] == ts[k + 1];
      CheckNeverEntersAnim(c1, ts[1..], inp);
    }
  }

  /** Anim is left only for Default, only once the intro has ended, and leaving it clears
      that flag. */
  lemma AnimExits(c: Cam, inp: CamInputs)
    requires Inv(c) && InputsOk(inp) && c.state == Anim
    ensures CheckTransitionsSpec(c, inp).state in {Anim, Default}
    ensures CheckTransitionsSpec(c, inp).state == Default <==> c.endIntro
    ensures CheckTransitionsSpec(c, inp).state == Default ==> !CheckTransitionsSpec(c, inp).endIntro
  {
    ShortPass(c, Wiring(Anim), inp);
  }

  /** Pause is entered only from Default, Warp, GravChange or Falling while the game is not in
      its default state, and is left only for Default once the game is back in it. */
  lemma PauseRules(c: Cam, inp: CamInputs)
    requires Inv(c) && InputsOk(inp)
    ensures c.state != Pause && CheckTransitionsSpec(c, inp).state == Pause ==>
      c.state in {Default, Warp, GravChange, Falling} && !inp.gameDefault
    ensures c.state == Pause ==> CheckTransitionsSpec(c, inp).state == (if inp.gameDefault then Default else Pause)
  {
    if c.state == Default { DefaultPass(c, inp); } else { ShortPass(c, Wiring(c.state), inp); }
  }

  /** GravChange is entered from Default only on request and from Warp only once the player
      has stopped warping; leaving it clears the request. */
  lemma GravChangeRules(c: Cam, to: CamState, inp: CamInputs)
    requires Inv(c) && InputsOk(inp)
    ensures c.state == Default && CheckTransitionsSpec(c, inp).state == GravChange ==> c.gravChangeTrigger
    ensures c.state == Warp && CheckTransitionsSpec(c, inp).state == GravChange ==> inp.playerState != P.Warping
    ensures c.state == GravChange && to != GravChange ==> !ChangeStateSpec(c, to, inp).gravChangeTrigger
  {
    if c.state == Default { GravChangeFromDefault(c, inp); }
    if c.state == Warp { GravChangeFromWarp(c, inp); }
  }

  lemma GravChangeFromDefault(c: Cam, inp: CamInputs)
    requires Inv(c) && InputsOk(inp) && c.state == Default
    ensures CheckTransitionsSpec(c, inp).state == GravChange ==> c.gravChangeTrigger
  {
    DefaultPass(c, inp);
  }

  lemma GravChangeFromWarp(c: Cam, inp: CamInputs)
    requires Inv(c) && InputsOk(inp) && c.state == Warp
    ensures CheckTransitionsSpec(c, inp).state == GravChange ==> inp.playerState != P.Warping
  {
    ShortPass(c, Wiring(Warp), inp);
  }

  /** Default goes to Rotate only on a rotation input while the player is idle, and the
      rotation starts from progress 0 with the direction the horizontal input gives. */
  lemma RotateEntry(c: Cam, inp: CamInputs)
    requires Inv(c) && InputsOk(inp) && c.state == Default
    ensures CheckTransitionsSpec(c, inp).state == Rotate ==>
      (inp.horizontal != 0 || inp.vertical == -1) && inp.playerState == P.Idle
      && CheckTransitionsSpec(c, inp).rotProgress == 0.0
      && CheckTransitionsSpec(c, inp).rotDirection == (if inp.horizontal in {-1, 1} then inp.horizontal else 0)
  {
    DefaultPass(c, inp);
  }

  /** A Default pass checks all its transitions even after one has fired, so a rotation input
      with a gravity change pending enters Rotate and leaves it at once for GravChange (and
      Pause after it while the game is not in its default state). Rotate's exit writes the
      camera's resting direction back to the player, and GravChange targets that direction. */
  lemma RotationLeftInItsPass(c: Cam, inp: CamInputs)
    requires Inv(c) && InputsOk(inp) && c.state == Default && c.gravChangeTrigger
    requires (inp.horizontal != 0 || inp.vertical == -1) && inp.playerState == P.Idle
    ensures var r := CheckTransitionsSpec(c, inp);
      && r.state == (if inp.gameDefault then GravChange else Pause)
      && r.events == c.events + [PlayerDirection(ToIVec(c.dir))]
      && r.targetUp == inp.playerUp && r.targetDir == c.dir
      && r.gravChangeTrigger == inp.gameDefault && r.rotProgress == 0.0
  {
    DefaultPass(c, inp);
    var ts := Wiring(Default);
    var c1 := ChangeStateSpec(c, Rotate, inp);
    RotateEnteredAtRest(c, inp);
    assert Step(c, ts[0], inp) == c1;
    assert Step(Step(c1, ts[1], inp), ts[2], inp) == c1;
    var c2 := ChangeStateSpec(c1, GravChange, inp);
    RotateLeftAtRest(c1, inp);
    assert Step(c1, ts[3], inp) == c2;
  }

  /** Entering Rotate from Default keeps the camera's resting direction and makes no
      progress. */
  lemma RotateEnteredAtRest(c: Cam, inp: CamInputs)
    requires Inv(c) && InputsOk(inp) && c.state == Default
    ensures var c1 := ChangeStateSpec(c, Rotate, inp);
      && Unstarted(c1) && c1.dir == c.dir && !c1.resetSM
      && c1.gravChangeTrigger == c.gravChangeTrigger && c1.events == c.events
  {
  }

  /** A rotation left for GravChange before any update writes back the resting direction,
      which GravChange then targets. */
  lemma RotateLeftAtRest(c: Cam, inp: CamInputs)
    requires Unstarted(c) && InputsOk(inp)
    ensures var c2 := ChangeStateSpec(c, GravChange, inp);
      && c2.events == c.events + [PlayerDirection(ToIVec(c.dir))]
      && c2.targetUp == inp.playerUp && c2.targetDir == c.dir
      && c2.gravChangeTrigger == c.gravChangeTrigger && c2.rotProgress == 0.0 && !c2.rotStarted
      && c2.resetSM == c.resetSM
  {
  }

  /** A rotation or a gravity change advances its progress by dt·rotSpeed clamped to [0, 1],
      and returns to Default exactly when the progress reaches 1; a completed rotation hands
      the turned direction to the player and comes to rest facing it, and a completed gravity
      change rests on the player's orientation as read in the frame the change completes
      (Default's entry reads it). */
  lemma ProgressAndCompletion(cfg: CamConfig, c: Cam, inp: CamInputs)
    requires Inv(c) && InputsOk(inp) && c.state in {Rotate, GravChange}
    ensures var r := UpdateSpec(cfg, c, inp);
      var p := Clamp((if c.state == Rotate then c.rotProgress else c.gravProgress) + inp.dt * cfg.rotSpeed, 0.0, 1.0);
      && (r.state == Default <==> p >= 1.0)
      && (r.state != Default ==> (r.state == c.state
            && (if c.state == Rotate then r.rotProgress else r.gravProgress) == p))
      && (c.state == Rotate && p >= 1.0 ==>
            && r.events == c.events + [PlayerDirection(ToIVec(RotationEnd(inp.playerUp, inp.playerDir, c.rotDirection)))]
            && r.up == inp.playerUp && r.dir == RotationEnd(inp.playerUp, inp.playerDir, c.rotDirection))
      && (c.state == GravChange && p >= 1.0 ==> r.up == inp.playerUp && r.dir == inp.playerDir)
  {
  }

  // ---------------------------------------------------------------------------------------
  // The controller

  class CameraController {
    const config: CamConfig

    var state: CamState
    var up: Axis
    var dir: Axis
    var dirOffset: real
    var upOffset: real
    var resetSM: bool
    var gravChangeTrigger: bool
    var endIntro: bool
    var rotDirection: int
    var rotProgress: real
    var rotStarted: bool
    var gravProgress: real
    var targetUp: Axis
    var targetDir: Axis
    var events: seq<CamEvent>

    function Snapshot(): Cam
      reads this
    {
      Cam(state, up, dir, dirOffset, upOffset, resetSM, gravChangeTrigger, endIntro,
          rotDirection, rotProgress, rotStarted, gravProgress, targetUp, targetDir, events)
    }

    predicate Valid()
      reads this
    {
      Inv(Snapshot())
    }

    /** Awake: InitStateMachine enters Anim with no state to exit; the offsets and the
        orientation start from the inspector and the level. */
    constructor(cfg: CamConfig)
      requires Orthogonal(cfg.startUp, cfg.startDir)
      ensures Valid() && config == cfg && state == Anim
      ensures dirOffset == cfg.dirOffset && upOffset == cfg.upOffset
      ensures up == cfg.startUp && dir == cfg.startDir && events == [IntroRestart]
    {
      config := cfg;
      state := Anim;
      resetSM := false;
      gravChangeTrigger := false;
      endIntro := false;
      rotDirection := 0;
      rotProgress := 0.0;
      rotStarted := false;
      gravProgress := 0.0;
      targetUp := cfg.startUp;
      targetDir := cfg.startDir;
      events := [IntroRestart];
      dirOffset := cfg.dirOffset;
      upOffset := cfg.upOffset;
      up := cfg.startUp;
      dir := cfg.startDir;
    }

    method ExitCurrent(inp: CamInputs)
      requires Orthogonal(inp.playerUp, inp.playerDir)
      modifies this
      ensures Snapshot() == ExitSpec(old(Snapshot()), inp)
    {
      match state
      case Rotate =>
        var written := ToIVec(dir);
        if rotProgress >= 1.0 {
          written := ToIVec(RotationEnd(inp.playerUp, inp.playerDir, rotDirection));
        } else if rotStarted {
          written := inp.partialDir;
        }
        rotProgress := 0.0;
        rotDirection := 0;
        rotStarted := false;
        events := events + [PlayerDirection(written)];
      case GravChange => gravChangeTrigger := false;
      case Anim => endIntro := false;
      case Default =>
      case Pause =>
      case Warp =>
      case Falling =>
    }

    method Enter(to: CamState, inp: CamInputs)
      modifies this
      ensures Snapshot() == EnterSpec(old(Snapshot()), to, inp)
    {
      state := to;
      match to
      case Default => up, dir := inp.playerUp, inp.playerDir;
      case Rotate =>
        if inp.horizontal == -1 {
          rotDirection := -1;
        } else if inp.horizontal == 1 {
          rotDirection := 1;
        }
      case Warp => up, dir := inp.playerUp, inp.playerDir;
      case GravChange =>
        gravProgress := 0.0;
        targetUp, targetDir := inp.playerUp, inp.playerDir;
      case Anim =>
        resetSM := false;
        events := events + [IntroRestart];
      case Pause =>
      case Falling => up, dir := inp.playerUp, inp.playerDir;
    }

    /** The entry reads the player's world_direction after the exit has written it: the
        turned direction after a completed rotation, the camera's resting direction after a
        rotation left before any update. */
    method ChangeState(to: CamState, inp: CamInputs)
      requires Orthogonal(inp.playerUp, inp.playerDir)
      modifies this
      ensures Snapshot() == ChangeStateSpec(old(Snapshot()), to, inp)
    {
      var read := inp;
      if state == Rotate && rotProgress >= 1.0 {
        read := inp.(playerDir := RotationEnd(inp.playerUp, inp.playerDir, rotDirection));
      } else if state == Rotate && !rotStarted {
        read := inp.(playerDir := dir);
      }
      ExitCurrent(inp);
      Enter(to, read);
    }

    /** sm.currentState.CheckTransitions(): the transitions of the state current at the call,
        each condition read after the previous transitions have fired. */
    method CheckTransitions(inp: CamInputs)
      requires Valid() && InputsOk(inp)
      modifies this
      ensures Valid()
      ensures Snapshot() == CheckTransitionsSpec(old(Snapshot()), inp)
    {
      CheckTransitionsKeepsInv(Snapshot(), inp);
      var ts := Wiring(state);
      for i := 0 to |ts|
        invariant CheckFrom(Snapshot(), ts[i..], inp) == CheckTransitionsSpec(old(Snapshot()), inp)
      {
        assert ts[i..][1..] == ts[i + 1..];
        var holds := match ts[i].guard
          case TriggerOnly => false
          case RotInput => (inp.horizontal != 0 || inp.vertical == -1) && inp.playerState == P.Idle
          case PlayerWarping => inp.playerState == P.Warping
          case ResetRequested => resetSM
          case GravChangeRequested => gravChangeTrigger
          case GameNotDefault => !inp.gameDefault
          case PlayerFalling => inp.playerState == P.Falling
          case PlayerNotFalling => inp.playerState != P.Falling
          case GameIsDefault => inp.gameDefault
          case PlayerNotWarping => inp.playerState != P.Warping
          case IntroEnded => endIntro;
        if holds {
          ChangeState(ts[i].to, inp);
        }
      }
    }

    /** Tilt. */
    method Tilt(inp: CamInputs)
      modifies this
      ensures Snapshot() == TiltSpec(config, old(Snapshot()), inp)
    {
      var targetDirOffset, targetUpOffset := config.dirOffset, config.upOffset;
      if inp.lookUp {
        targetDirOffset, targetUpOffset := config.tiltUpDir, config.tiltUpUp;
      } else if inp.lookDown {
        targetDirOffset, targetUpOffset := config.tiltDownDir, config.tiltDownUp;
      }
      dirOffset := MoveTowards(dirOffset, targetDirOffset, inp.dt * config.tiltSpeed);
      upOffset := MoveTowards(upOffset, targetUpOffset, inp.dt * config.tiltSpeed);
    }

    /** sm.Update(): UpdateState of the current state. */
    method Update(inp: CamInputs)
      requires Valid() && InputsOk(inp)
      modifies this
      ensures Valid()
      ensures Snapshot() == UpdateSpec(config, old(Snapshot()), inp)
    {
      UpdateKeepsInv(config, Snapshot(), inp);
      match state
      case Default => Tilt(inp);
      case Warp => Tilt(inp);
      case Falling => Tilt(inp);
      case Rotate => UpdateRotate(inp);
      case GravChange => UpdateGravChange(inp);
      case Anim =>
      case Pause =>
    }

    method UpdateRotate(inp: CamInputs)
      requires state == Rotate && InputsOk(inp)
      modifies this
      ensures Snapshot() == UpdateSpec(config, old(Snapshot()), inp)
    {
      rotProgress := Advance(config, rotProgress, inp.dt);
      rotStarted := true;
      Tilt(inp);
      if rotProgress >= 1.0 {
        ChangeState(Default, inp);
      }
    }

    method UpdateGravChange(inp: CamInputs)
      requires state == GravChange && InputsOk(inp)
      modifies this
      ensures Snapshot() == UpdateSpec(config, old(Snapshot()), inp)
    {
      gravProgress := Advance(config, gravProgress, inp.dt);
      Tilt(inp);
      ghost var c1 := Snapshot();
      assert c1 == TiltSpec(config, old(Snapshot()).(gravProgress := gravProgress), inp);
      if gravProgress >= 1.0 {
        up, dir := targetUp, targetDir;
        assert Snapshot() == c1.(up := old(targetUp), dir := old(targetDir));
        ChangeState(Default, inp);
      }
    }

    /** LateUpdate: the transitions, then the current state's update. */
    method LateUpdate(inp: CamInputs)
      requires Valid() && InputsOk(inp)
      modifies this
      ensures Valid()
      ensures Snapshot() == UpdateSpec(config, CheckTransitionsSpec(old(Snapshot()), inp), inp)
    {
      CheckTransitions(inp);
      Update(inp);
    }

    /** Reset: sm.Reset(), back to Anim through OnExitState. */
    method Reset(inp: CamInputs)
      requires Valid() && InputsOk(inp)
      modifies this
      ensures Valid() && state == Anim
      ensures Snapshot() == ResetSpec(old(Snapshot()), inp)
    {
      ChangeStateKeepsInv(Snapshot(), Anim, inp);
      ChangeState(Anim, inp);
    }

    method TriggerGravChange()
      modifies this
      ensures Snapshot() == old(Snapshot()).(gravChangeTrigger := true)
    {
      gravChangeTrigger := true;
    }

    method EndIntro()
      modifies this
      ensures Snapshot() == old(Snapshot()).(endIntro := true)
    {
      endIntro := true;
    }
  }
}
