/** The older, enum-driven camera of Scripts/MonoBehaviour/CameraController.cs (the `_NEW_`
    branch). Its single field camState is rewritten by HandleInput, Pause, Resume and Rotate,
    and LateUpdate dispatches on ranges of the enumeration's declaration order.

    The player's flags and orientation and the input axes arrive in an EnumCamInputs record.
    Vector3.RotateTowards is a floating-point rotation; whether it has reached its target on
    this frame is an input, and the direction it reaches then is computed on axes. */
module EnumCamera {
  import opened Axes
  import C = Camera

  datatype CamState = Default | TiltUp | TiltDown | RotLeft | RotRight | RotUp | RotDown | RotBack | Pause | Anim

  /** The position of a state in the declaration order, which the source compares with
      `<=`. */
  function Ordinal(s: CamState): (n: nat)
    ensures n <= 9
  {
    match s
    case Default => 0 case TiltUp => 1 case TiltDown => 2 case RotLeft => 3 case RotRight => 4
    case RotUp => 5 case RotDown => 6 case RotBack => 7 case Pause => 8 case Anim => 9
  }

  lemma OrdinalInjective(a: CamState, b: CamState)
    ensures Ordinal(a) == Ordinal(b) <==> a == b
  {
  }

  datatype EnumCamInputs = EnumCamInputs(
    horizontalDown: bool,   // Input.GetButtonDown("Horizontal")
    horizontal: int,        // Input.GetAxisRaw("Horizontal")
    verticalDown: bool,     // Input.GetButtonDown("Vertical")
    vertical: int,          // Input.GetAxisRaw("Vertical")
    lookUp: bool,           // Input.GetButton("LookUp")
    lookDown: bool,         // Input.GetButton("LookDown")
    playerMoving: bool, playerWarping: bool, playerFalling: bool,
    playerUp: Axis, playerDir: Axis,
    rotationReached: bool   // RotateTowards has arrived at its target on this frame
  )

  /** What LateUpdate does with the transform. */
  datatype Pose = FollowPose | TiltPose | RotatePose | NoPose | PausePose

  /** IsDefault: the one state in which LateUpdate follows the player. */
  predicate IsDefault(s: CamState)
    ensures IsDefault(s) <==> Dispatch(s) == FollowPose
  {
    s == Default
  }

  /** CanRotate: the camera is at rest and the player is neither moving, warping nor
      falling; whenever a rotation may start, so may a tilt. */
  predicate CanRotate(s: CamState, inp: EnumCamInputs)
    ensures CanRotate(s, inp) ==> CanTilt(s, inp) && Dispatch(s) == FollowPose
    ensures CanRotate(s, inp) ==> !inp.playerMoving && !inp.playerWarping && !inp.playerFalling
  {
    IsDefault(s) && !inp.playerMoving && !inp.playerWarping && !inp.playerFalling
  }

  /** CanTilt: a state no later than TiltDown, and the player not falling. */
  function CanTilt(s: CamState, inp: EnumCamInputs): (r: bool)
    ensures r <==> s in {Default, TiltUp, TiltDown} && !inp.playerFalling
  {
    Ordinal(s) <= Ordinal(TiltDown) && !inp.playerFalling
  }

  /** HandleInput: the first of RotLeft, RotRight, RotBack, TiltUp, TiltDown whose input and
      permission hold; otherwise camState is unchanged. */
  function HandleInput(s: CamState, inp: EnumCamInputs): (r: CamState)
    ensures inp.horizontalDown && inp.horizontal == -1 && CanRotate(s, inp) ==> r == RotLeft
    ensures r == RotRight <==> (s == RotRight
      || (inp.horizontalDown && inp.horizontal == 1 && CanRotate(s, inp)))
    ensures r == RotBack <==> (s == RotBack
      || (!(inp.horizontalDown && inp.horizontal in {-1, 1}) && inp.verticalDown && inp.vertical == -1 && CanRotate(s, inp)))
    ensures r in {RotLeft, RotRight, RotBack} && r != s ==> CanRotate(s, inp)
    ensures r in {TiltUp, TiltDown} && r != s ==> CanTilt(s, inp)
    ensures r == TiltDown && r != s ==> !inp.lookUp && inp.lookDown
    ensures r != s ==> r in {RotLeft, RotRight, RotBack, TiltUp, TiltDown}
    ensures !CanTilt(s, inp) && !CanRotate(s, inp) ==> r == s
  {
    if inp.horizontalDown && inp.horizontal == -1 && CanRotate(s, inp) then RotLeft
    else if inp.horizontalDown && inp.horizontal == 1 && CanRotate(s, inp) then RotRight
    else if inp.verticalDown && inp.vertical == -1 && CanRotate(s, inp) then RotBack
    else if inp.lookUp && CanTilt(s, inp) then TiltUp
    else if inp.lookDown && CanTilt(s, inp) then TiltDown
    else s
  }

  /** LateUpdate's dispatch over the ranges of the enumeration. */
  function Dispatch(s: CamState): (p: Pose)
    ensures p == FollowPose <==> s == Default
    ensures p == TiltPose <==> s in {TiltUp, TiltDown}
    ensures p == RotatePose <==> s in {RotLeft, RotRight, RotUp, RotDown, RotBack}
    ensures p == NoPose <==> s == Anim
    ensures p == PausePose <==> s == Pause
  {
    if s == Default then FollowPose
    else if Ordinal(s) <= Ordinal(TiltDown) then TiltPose
    else if Ordinal(s) <= Ordinal(RotBack) then RotatePose
    else if s == Anim then NoPose
    else PausePose
  }

  /** The target of a left or right rotation: the player's direction turned a quarter about
      up, as in the state-machine camera. */
  function RotateTarget(s: CamState, up: Axis, dir: Axis): (r: Axis)
    requires s in {RotLeft, RotRight} && Orthogonal(up, dir)
    ensures Orthogonal(up, r) && Orthogonal(dir, r)
  {
    C.RotationEnd(up, dir, if s == RotLeft then -1 else 1)
  }

  /** A snapshot of the camera: its state, its direction and up at rest, and what it has
      written to the player's direction. */
  datatype EnumCam = EnumCam(camState: CamState, up: Axis, dir: Axis, playerDirWrites: seq<Axis>)

  /** Rotate: only RotLeft and RotRight act; on reaching the target the player's direction
      becomes the target and the camera returns to Default. */
  function RotateSpec(c: EnumCam, inp: EnumCamInputs): (r: EnumCam)
    requires Orthogonal(inp.playerUp, inp.playerDir)
    ensures r.up == c.up
    ensures !(c.camState in {RotLeft, RotRight} && inp.rotationReached) ==> r == c
    ensures c.camState in {RotLeft, RotRight} && inp.rotationReached ==>
      && r.camState == Default
      && r.playerDirWrites == c.playerDirWrites + [r.dir]
      && Orthogonal(inp.playerUp, r.dir) && Orthogonal(inp.playerDir, r.dir)
  {
    if c.camState in {RotLeft, RotRight} && inp.rotationReached then
      var target := RotateTarget(c.camState, inp.playerUp, inp.playerDir);
      c.(dir := target, camState := Default, playerDirWrites := c.playerDirWrites + [target])
    else c
  }

  /** LateUpdate: HandleInput, then Follow, Tilt (which does nothing) or Rotate by the
      dispatch. The pose applied is returned with the new state. */
  function LateUpdateSpec(c: EnumCam, inp: EnumCamInputs): (r: (EnumCam, Pose))
    requires Orthogonal(inp.playerUp, inp.playerDir)
    ensures r.1 == Dispatch(HandleInput(c.camState, inp))
  {
    var c1 := c.(camState := HandleInput(c.camState, inp));
    match Dispatch(c1.camState)
    case FollowPose => (c1.(up := inp.playerUp, dir := inp.playerDir), FollowPose)
    case TiltPose => (c1, TiltPose)
    case RotatePose => (RotateSpec(c1, inp), RotatePose)
    case NoPose => (c1, NoPose)
    case PausePose => (c1, PausePose)
  }

  /** A rotation hands the player a direction still perpendicular to its up, a quarter turn
      from its old direction, and ends in Default; RotUp, RotDown and RotBack change
      nothing. */
  lemma RotationOutcome(c: EnumCam, inp: EnumCamInputs)
    requires Orthogonal(inp.playerUp, inp.playerDir)
    ensures c.camState in {RotUp, RotDown, RotBack} ==> RotateSpec(c, inp) == c
    ensures c.camState in {RotLeft, RotRight} && inp.rotationReached ==>
      var r := RotateSpec(c, inp);
      && r.camState == Default
      && |r.playerDirWrites| == |c.playerDirWrites| + 1
      && Orthogonal(inp.playerUp, r.playerDirWrites[|c.playerDirWrites|])
      && Orthogonal(inp.playerDir, r.playerDirWrites[|c.playerDirWrites|])
  {
    if c.camState in {RotLeft, RotRight} {
      C.RotationEndIsTurn(inp.playerUp, inp.playerDir, if c.camState == RotLeft then -1 else 1);
    }
  }

  /** Once the camera is tilted, nothing but Resume brings it back to Default: HandleInput
      only moves between the two tilt states, Tilt does nothing, and rotations stay
      refused. */
  lemma {:induction false} TiltIsSticky(c: EnumCam, inps: seq<EnumCamInputs>)
    requires c.camState in {TiltUp, TiltDown}
    requires forall k :: 0 <= k < |inps| ==> Orthogonal(inps[k].playerUp, inps[k].playerDir)
    ensures Run(c, inps).camState in {TiltUp, TiltDown}
    decreases |inps|
  {
    if |inps| > 0 {
      assert forall k :: 0 <= k < |inps[1..]| ==> inps[1..][k] == inps[k + 1];
      TiltIsSticky(LateUpdateSpec(c, inps[0]).0, inps[1..]);
    }
  }

  /** Successive frames. */
  function Run(c: EnumCam, inps: seq<EnumCamInputs>): EnumCam
    requires forall k :: 0 <= k < |inps| ==> Orthogonal(inps[k].playerUp, inps[k].playerDir)
    decreases |inps|
  {
    if |inps| == 0 then c
    else
      assert forall k :: 0 <= k < |inps[1..]| ==> inps[1..][k] == inps[k + 1];
      Run(LateUpdateSpec(c, inps[0]).0, inps[1..])
  }

  class EnumCameraController {
    var camState: CamState
    var up: Axis
    var dir: Axis
    var playerDirWrites: seq<Axis>

    function Snapshot(): EnumCam
      reads this
    {
      EnumCam(camState, up, dir, playerDirWrites)
    }

    /** camState starts at Default. */
    constructor(startUp: Axis, startDir: Axis)
      ensures camState == Default && up == startUp && dir == startDir && playerDirWrites == []
    {
      camState := Default;
      up := startUp;
      dir := startDir;
      playerDirWrites := [];
    }

    method Pause()
      modifies this
      ensures Snapshot() == old(Snapshot()).(camState := CamState.Pause)
    {
      camState := CamState.Pause;
    }

    method Resume()
      modifies this
      ensures Snapshot() == old(Snapshot()).(camState := Default)
    {
      camState := Default;
    }

    method HandleInputs(inp: EnumCamInputs)
      modifies this
      ensures Snapshot() == old(Snapshot()).(camState := HandleInput(old(camState), inp))
    {
      if inp.horizontalDown && inp.horizontal == -1 && CanRotate(camState, inp) {
        camState := RotLeft;
      } else if inp.horizontalDown && inp.horizontal == 1 && CanRotate(camState, inp) {
        camState := RotRight;
      } else if inp.verticalDown && inp.vertical == -1 && CanRotate(camState, inp) {
        camState := RotBack;
      } else if inp.lookUp && CanTilt(camState, inp) {
        camState := TiltUp;
      } else if inp.lookDown && CanTilt(camState, inp) {
        camState := TiltDown;
      }
    }

    method Rotate(inp: EnumCamInputs)
      requires Orthogonal(inp.playerUp, inp.playerDir)
      modifies this
      ensures Snapshot() == RotateSpec(old(Snapshot()), inp)
    {
      if camState == RotLeft || camState == RotRight {
        var target := RotateTarget(camState, inp.playerUp, inp.playerDir);
        if inp.rotationReached {
          dir := target;
          playerDirWrites := playerDirWrites + [target];
          camState := Default;
        }
      }
    }

    method LateUpdate(inp: EnumCamInputs) returns (pose: Pose)
      requires Orthogonal(inp.playerUp, inp.playerDir)
      modifies this
      ensures (Snapshot(), pose) == LateUpdateSpec(old(Snapshot()), inp)
    {
      HandleInputs(inp);
      if camState == Default {
        up, dir := inp.playerUp, inp.playerDir;
        pose := FollowPose;
      } else if Ordinal(camState) <= Ordinal(TiltDown) {
        pose := TiltPose;
      } else if Ordinal(camState) <= Ordinal(RotBack) {
        Rotate(inp);
        pose := RotatePose;
      } else if camState == Anim {
        pose := NoPose;
      } else {
        pose := PausePose;
      }
    }
  }
}
