/** The player of Scripts/MonoBehaviour/PlayerController.cs (the `_NEW_` branch): a state
    machine over Idle, Moving, Warping, Falling and GravityChange whose nested states update the
    player's orientation (world_up, world_direction), position and rigid-body gravity flag.

    The engine is replaced by what it answers: a Probes record carries, for one call, the input
    axes, the raycast results, the animator phase, Time.deltaTime and the two quantities the
    engine computes in floating point (the length of the current move and the position after a
    rotation about the contact edge). Animator triggers, Physics.gravity writes, the camera
    notification and GameController.Lost are recorded as events.

    The pure decisions (CanMove, NextBlockLevel, the move target, the warp face choice and the
    orientation remaps) are functions; each state hook and each entry point of the controller
    is specified by a function on a snapshot of the controller's fields (Body), and the class
    PlayerController updates its fields so that its snapshot follows those functions. */
module Player {
  import opened Wrappers
  import opened Axes
  import U = Utils

  datatype PlayerState = Idle | Moving | Warping | Falling | GravityChange

  /** What the engine answers during one call. */
  datatype Probes = Probes(
    forwardHeld: bool,       // Input.GetAxisRaw("Vertical") == 1
    warpPressed: bool,       // Input.GetButtonDown("Warp")
    cameraDefault: bool,     // CameraController.cc.IsDefault()
    paused: bool,            // GameController.gc.IsPaused()
    front: Option<real>,     // distance of the hit of the 1.6 ray along dir - up, if any
    leftHit: bool,           // the 1.6 ray along (up×dir) - up hits
    rightHit: bool,          // the 1.6 ray along -(up×dir) - up hits
    aheadHits: seq<real>,    // hit distances of RaycastAll along dir, length 2
    aboveHits: seq<real>,    // hit distances of RaycastAll along up, length 2.5 - sphereRadius
    solid: set<Axis>,        // the directions whose 1.0 ray from the position hits
    ground: bool,            // the ray along -up of length 1.25·sphereRadius hits
    floorBelow: bool,        // the ray along -up of length 50 hits
    fadeIn: bool,            // animState == AnimState.FadeIn
    dt: real,                // Time.deltaTime
    moveLength: real,        // (m_target - m_start).magnitude of the current move
    rotatedPos: U.Vec3       // the position after transform.RotateAround during a gradual turn
  )

  /** Engine side effects, in the order they happen. */
  datatype Event =
    | AnimIsMoving(moving: bool)   // animator bool isMoving
    | AnimWarp                     // animator trigger warp
    | AnimImpact                   // animator trigger impact
    | GravitySet(down: Axis)       // Physics.gravity = gravity·down
    | CameraGravChange             // the camera is told to follow a gravity change
    | Died                         // Die(): GameController.gc.Lost()

  /** The per-level constants the controller reads. */
  datatype Config = Config(
    boxSize: real, sphereRadius: real, speed: real, easeInTime: real,
    startUp: Axis, startDir: Axis, startPos: U.Vec3)

  predicate ConfigOk(c: Config) {
    c.boxSize > 0.0 && c.sphereRadius > 0.0 && c.speed >= 0.0 && c.easeInTime >= 0.0
    && Orthogonal(c.startUp, c.startDir)
  }

  /** m_angularSpeed: degrees per second of a gradual turn over an edge. */
  function AngularSpeed(c: Config): real
    requires c.boxSize > 0.0
  {
    90.0 * c.speed / (c.boxSize * 0.5)
  }

  const HoverTime: real := 0.3
  const FallThreshold: real := 1.5

  /** The fields of the nested state Moving. */
  datatype MoveState = MoveState(
    level: int, easeIn: bool, arrived: bool, start: U.Vec3, target: U.Vec3, t: real,
    easeInTime: real)

  /** The fields of the nested state Warping. */
  datatype WarpState = WarpState(newDir: Axis, boxDir: Axis, target: U.Vec3, t: real, hovering: bool)

  /** The fields of the nested state Falling. */
  datatype FallState = FallState(hit: bool, t: real)

  /** The fields of the nested state GravityChange. */
  datatype GravState = GravState(
    gradual: bool, up: Axis, dir: Axis, contact: U.Vec3, t: real, pred: Option<PlayerState>)

  /** A snapshot of everything the controller and its nested states hold. */
  datatype Body = Body(
    state: PlayerState, up: Axis, dir: Axis, pos: U.Vec3, useGravity: bool,
    sphereActive: bool, moving: MoveState, warping: WarpState, falling: FallState,
    grav: GravState, events: seq<Event>)

  // ---------------------------------------------------------------------------------------
  // Decisions

  /** CanMove: no move while a move, a warp or a fall is in progress, while the camera is busy
      or while the game is paused; otherwise a hit in front always allows a move, and without
      one the player may only move when neither side probe hits. */
  function CanMove(state: PlayerState, p: Probes): (r: bool)
    ensures state in {GravityChange, Warping, Falling} || !p.cameraDefault || p.paused ==> !r
    ensures state in {Idle, Moving} && p.cameraDefault && !p.paused ==>
      (r <==> p.front.Some? || (!p.leftHit && !p.rightHit))
  {
    if state == GravityChange || state == Warping || state == Falling || !p.cameraDefault || p.paused
    then false
    else if p.front.Some? then true
    else !p.leftHit && !p.rightHit
  }

  /** Moving.NextBlockLevel: 1 for a block up ahead (hit closer than 1), 0 for level ground,
      -1 for an edge (no hit). */
  function NextBlockLevel(front: Option<real>): (level: int)
    ensures level in {-1, 0, 1}
    ensures level == 1 <==> front.Some? && front.value < 1.0
    ensures level == 0 <==> front.Some? && front.value >= 1.0
    ensures level == -1 <==> front.None?
  {
    match front
    case None => -1
    case Some(d) => if d < 1.0 then 1 else 0
  }

  /** Moving.GetTarget: a full block ahead on level ground, up to the edge before rolling down,
      and until touching the next block before climbing it. */
  function MoveTarget(start: U.Vec3, dir: Axis, level: int, sphereRadius: real): (target: U.Vec3)
    ensures level == 0 ==> target == U.Add(start, ToVec3(dir))
    ensures level == -1 ==> target == U.Add(start, U.Scale(0.5, ToVec3(dir)))
    ensures level == 1 ==> target == U.Add(start, U.Scale(0.5 - sphereRadius, ToVec3(dir)))
  {
    U.Add(start, U.Scale(MoveOffset(level, sphereRadius), ToVec3(dir)))
  }

  /** How far GetTarget places the target along the walking direction for each level. */
  function MoveOffset(level: int, sphereRadius: real): real {
    if level == -1 then 0.5 else if level == 1 then 0.5 - sphereRadius else 1.0
  }

  /** A move goes straight along the walking direction, over a distance equal to its offset. */
  lemma MoveTargetAlongDir(start: U.Vec3, dir: Axis, level: int, sphereRadius: real)
    ensures U.Sub(MoveTarget(start, dir, level, sphereRadius), start)
      == U.Scale(MoveOffset(level, sphereRadius), ToVec3(dir))
    ensures U.SqLen(U.Sub(MoveTarget(start, dir, level, sphereRadius), start))
      == MoveOffset(level, sphereRadius) * MoveOffset(level, sphereRadius)
  {
  }

  /** The hits CanWarp inspects: ahead when moving or when forward is held, above otherwise. */
  function WarpProbeHits(state: PlayerState, p: Probes): seq<real> {
    if state == Moving || p.forwardHeld then p.aheadHits else p.aboveHits
  }

  predicate WarpGateOpen(state: PlayerState, p: Probes) {
    p.cameraDefault && !p.paused && state !in {Warping, Falling, GravityChange}
  }

  /** CanWarp, as its condition: the gate is open and no hit lies beyond one block. A warp
      never starts during a warp, a fall or a gravity change, and with nothing hit it is
      allowed whenever the gate is open; the camera must be at rest and the game running. */
  predicate CanWarpSpec(boxSize: real, state: PlayerState, p: Probes)
    ensures CanWarpSpec(boxSize, state, p) ==> state !in {Warping, Falling, GravityChange} && p.cameraDefault && !p.paused
    ensures WarpGateOpen(state, p) && |WarpProbeHits(state, p)| == 0 ==> CanWarpSpec(boxSize, state, p)
  {
    WarpGateOpen(state, p)
    && forall i :: 0 <= i < |WarpProbeHits(state, p)| ==> WarpProbeHits(state, p)[i] <= boxSize
  }

  /** The order Warping.OnExitState probes for a face to stand on. */
  function WarpCandidates(up: Axis, dir: Axis): seq<Axis>
    requires Orthogonal(up, dir)
  {
    [Neg(up), dir, Cross(dir, up), Cross(up, dir), Neg(dir), up]
  }

  /** The first of the candidates whose probe hits. */
  function FirstSolid(candidates: seq<Axis>, solid: set<Axis>): (r: Option<Axis>)
    ensures r.Some? ==> r.value in solid && r.value in candidates
    ensures r.Some? ==> exists k :: (0 <= k < |candidates| && candidates[k] == r.value
      && forall j :: 0 <= j < k ==> candidates[j] !in solid)
    ensures r.None? <==> forall j :: 0 <= j < |candidates| ==> candidates[j] !in solid
  {
    if |candidates| == 0 then None
    else if candidates[0] in solid then Some(candidates[0])
    else
      var rest := FirstSolid(candidates[1..], solid);
      if rest.Some? then
        ghost var k :| 1 <= k + 1 < |candidates| && candidates[1..][k] == rest.value
          && forall j :: 0 <= j < k ==> candidates[1..][j] !in solid;
        assert candidates[k + 1] == rest.value;
        assert forall j :: 1 <= j < k + 1 ==> candidates[j] == candidates[1..][j - 1];
        rest
      else
        assert forall j :: 1 <= j < |candidates| ==> candidates[j] == candidates[1..][j - 1];
        rest
  }

  /** The direction kept after a warp: the old walking direction, unless the new gravity axis
      is (within 0.01) parallel to it, in which case the old up. */
  function NewDir(up: Axis, dir: Axis, boxDir: Axis): Axis {
    if U.Abs(1.0 - U.Abs(Dot(dir, boxDir) as real)) < 0.01 then up else dir
  }

  /** The new gravity face and the new walking direction make a valid orientation again, and
      the tolerance test amounts to exact parallelism. */
  lemma WarpReorientation(up: Axis, dir: Axis, boxDir: Axis)
    requires Orthogonal(up, dir) && boxDir in WarpCandidates(up, dir)
    ensures Orthogonal(Neg(boxDir), NewDir(up, dir, boxDir))
    ensures NewDir(up, dir, boxDir) == up <==> (boxDir == dir || boxDir == Neg(dir))
  {
    DotOfAxes(dir, boxDir);
    CrossOfOrthogonal(up, dir);
  }

  /** The new (up, dir) GravityChange.OnEnterState installs, by the state it came from: over
      an edge down, up := dir and dir := -up; up a block, up := -dir and dir := up; after a warp,
      up := -boxDir and dir := newDir. */
  function GravityRemap(from: PlayerState, level: int, up: Axis, dir: Axis, w: WarpState): (r: (Axis, Axis))
    requires from in {Moving, Warping}
    ensures from == Moving ==> r.0 in {dir, Neg(dir)} && r.1 in {up, Neg(up)}
    ensures from == Warping ==> r.0 == Neg(w.boxDir) && r.1 == w.newDir
    ensures from == Moving && Orthogonal(up, dir) ==> Orthogonal(r.0, r.1)
  {
    if from == Moving then
      if level == -1 then (dir, Neg(up)) else (Neg(dir), up)
    else (Neg(w.boxDir), w.newDir)
  }

  lemma GravityRemapOrthogonal(from: PlayerState, level: int, up: Axis, dir: Axis, w: WarpState)
    requires from in {Moving, Warping}
    requires Orthogonal(up, dir) && Orthogonal(w.boxDir, w.newDir)
    ensures Orthogonal(GravityRemap(from, level, up, dir, w).0, GravityRemap(from, level, up, dir, w).1)
  {
  }

  /** Rolling down over an edge and then climbing the block just left restores the
      orientation, and four roll-downs in a row go once around a block. */
  lemma EdgeRollsCompose(up: Axis, dir: Axis, w: WarpState)
    ensures var (u1, d1) := GravityRemap(Moving, -1, up, dir, w);
      GravityRemap(Moving, 1, u1, d1, w) == (up, dir)
    ensures var (u1, d1) := GravityRemap(Moving, -1, up, dir, w);
      var (u2, d2) := GravityRemap(Moving, -1, u1, d1, w);
      var (u3, d3) := GravityRemap(Moving, -1, u2, d2, w);
      GravityRemap(Moving, -1, u3, d3, w) == (up, dir)
  {
  }

  // ---------------------------------------------------------------------------------------
  // The nested states' hooks, on snapshots

  /** The invariant the controller keeps. */
  predicate Inv(c: Config, b: Body) {
    && ConfigOk(c)
    && Orthogonal(b.up, b.dir)
    && Orthogonal(b.warping.boxDir, b.warping.newDir)
    && Orthogonal(b.grav.up, b.grav.dir)
    && (b.state == Warping ==> b.warping.boxDir == Neg(b.up) && b.warping.newDir == b.dir)
    && (b.state == GravityChange ==> b.grav.pred.Some? && b.grav.pred.value in {Moving, Warping})
    && (b.grav.gradual ==> b.grav.pred == Some(Moving))
    && b.moving.t >= 0.0 && b.moving.easeInTime >= 0.0 && b.falling.t >= 0.0 && b.warping.t >= 0.0
  }

  /** The state after a Warping.OnExitState: the first face whose probe hits becomes boxDir,
      and newDir is chosen against it; with no face, gravity is switched back on and boxDir and
      newDir keep their values. */
  function WarpExit(b: Body, p: Probes): (r: Body)
    requires Orthogonal(b.up, b.dir)
    ensures r.state == b.state && r.up == b.up && r.dir == b.dir && r.events == b.events
    ensures FirstSolid(WarpCandidates(b.up, b.dir), p.solid).None? ==>
      r == b.(useGravity := true)
    ensures FirstSolid(WarpCandidates(b.up, b.dir), p.solid).Some? ==>
      var face := FirstSolid(WarpCandidates(b.up, b.dir), p.solid).value;
      r == b.(warping := b.warping.(boxDir := face, newDir := NewDir(b.up, b.dir, face)))
  {
    match FirstSolid(WarpCandidates(b.up, b.dir), p.solid)
    case None => b.(useGravity := true)
    case Some(face) => b.(warping := b.warping.(boxDir := face, newDir := NewDir(b.up, b.dir, face)))
  }

  /** OnExitState of the current state: no exit moves the player, turns it or changes its
      state; leaving Moving re-arms the ease-in, and only leaving Warping touches the warp
      fields or gravity. */
  function ExitSpec(b: Body, p: Probes): (r: Body)
    requires Orthogonal(b.up, b.dir)
    ensures r.state == b.state && r.up == b.up && r.dir == b.dir && r.pos == b.pos
    ensures b.state == Moving ==> r.moving.easeIn
    ensures b.state != Warping ==> r.warping == b.warping && r.useGravity == b.useGravity
  {
    match b.state
    case Idle => b.(events := b.events + [AnimIsMoving(true)])
    case Moving => b.(moving := b.moving.(easeIn := true))
    case Warping => WarpExit(b, p)
    case Falling => b.(events := b.events + [AnimImpact])
    case GravityChange => b
  }

  /** Where a warp lands: two blocks ahead when coming from a move or with forward held,
      otherwise two blocks up; both relative to the snapped position. */
  function WarpTarget(c: Config, forward: bool, pos: U.Vec3, up: Axis, dir: Axis): (r: U.Vec3)
    ensures forward ==>
      U.OnShiftedLattice(U.Sub(r, U.Scale(0.5 - c.sphereRadius, ToVec3(up))), ToVec3(up), c.boxSize * 0.5 - c.sphereRadius)
  {
    var base := U.SnapToGridAll(pos, ToVec3(up), c.boxSize, c.sphereRadius);
    U.SnapToGridAllOnLattice(pos, ToVec3(up), c.boxSize, c.sphereRadius);
    WarpAheadOnGrid(base, ToVec3(up), ToIVec(dir), c.boxSize * 0.5 - c.sphereRadius);
    if forward then
      U.Add(U.Add(base, U.Scale(2.0, ToVec3(dir))), U.Scale(0.5 - c.sphereRadius, ToVec3(up)))
    else U.Add(base, U.Scale(2.0 * c.boxSize + 0.5 - c.sphereRadius, ToVec3(up)))
  }

  /** Two blocks along an integer direction from a grid position is a grid position. */
  lemma WarpAheadOnGrid(base: U.Vec3, up: U.Vec3, dir: IVec, h: real)
    requires U.OnShiftedLattice(base, up, h)
    ensures U.OnShiftedLattice(U.Add(base, U.Scale(2.0, U.Vec3(dir.x as real, dir.y as real, dir.z as real))), up, h)
  {
    var q := U.Add(base, U.Scale(2.0, U.Vec3(dir.x as real, dir.y as real, dir.z as real)));
    U.IntegralOfInt(2 * dir.x);
    U.IntegralOfInt(2 * dir.y);
    U.IntegralOfInt(2 * dir.z);
    U.IntegralAdd(base.x + h * up.x, (2 * dir.x) as real);
    U.IntegralAdd(base.y + h * up.y, (2 * dir.y) as real);
    U.IntegralAdd(base.z + h * up.z, (2 * dir.z) as real);
    assert q.x + h * up.x == (base.x + h * up.x) + (2 * dir.x) as real;
    assert q.y + h * up.y == (base.y + h * up.y) + (2 * dir.y) as real;
    assert q.z + h * up.z == (base.z + h * up.z) + (2 * dir.z) as real;
  }

  /** Moving.OnEnterState: after a gravity change, half a block ahead on the new face with no
      ease-in; otherwise the next block level decides the target, and the ease-in applies
      unless this is a continuation. */
  function MoveEnter(c: Config, m: MoveState, from: PlayerState, p: Probes, pos: U.Vec3, up: Axis, dir: Axis): (r: MoveState)
    ensures r.t == 0.0 && !r.arrived && r.easeIn == m.easeIn
    ensures from == GravityChange ==> r.level == 0 && r.easeInTime == 0.0
    ensures from != GravityChange ==> (r.level == NextBlockLevel(p.front)
      && r.easeInTime == (if m.easeIn then c.easeInTime else 0.0)
      && r.target == MoveTarget(r.start, dir, r.level, c.sphereRadius))
    ensures from == GravityChange ==>
      && r.start == U.SnapToGridUp(pos, ToVec3(up), c.boxSize, c.sphereRadius)
      && r.target == U.SnapToGridAll(U.Add(r.start, U.Scale(0.5 * c.boxSize, ToVec3(dir))), ToVec3(up), c.boxSize, c.sphereRadius)
      && U.OnShiftedLattice(r.target, ToVec3(up), c.boxSize * 0.5 - c.sphereRadius)
    ensures from != GravityChange ==>
      && r.start == U.SnapToGridAll(pos, ToVec3(up), c.boxSize, c.sphereRadius)
      && U.OnShiftedLattice(r.start, ToVec3(up), c.boxSize * 0.5 - c.sphereRadius)
  {
    if from == GravityChange then
      var start := U.SnapToGridUp(pos, ToVec3(up), c.boxSize, c.sphereRadius);
      var ahead := U.Add(start, U.Scale(0.5 * c.boxSize, ToVec3(dir)));
      U.SnapToGridAllOnLattice(ahead, ToVec3(up), c.boxSize, c.sphereRadius);
      var target := U.SnapToGridAll(ahead, ToVec3(up), c.boxSize, c.sphereRadius);
      m.(level := 0, start := start, target := target, easeInTime := 0.0, t := 0.0, arrived := false)
    else
      var level := NextBlockLevel(p.front);
      U.SnapToGridAllOnLattice(pos, ToVec3(up), c.boxSize, c.sphereRadius);
      var start := U.SnapToGridAll(pos, ToVec3(up), c.boxSize, c.sphereRadius);
      m.(level := level, start := start, target := MoveTarget(start, dir, level, c.sphereRadius),
         easeInTime := if m.easeIn then c.easeInTime else 0.0, t := 0.0, arrived := false)
  }

  /** GravityChange.OnEnterState: installs the remapped orientation, points gravity against the
      new up, and always leaves the rigid body's gravity on, even after switching it off for a
      gradual turn over an edge. */
  function GravEnter(c: Config, b: Body, from: PlayerState): (r: Body)
    requires from in {Moving, Warping}
    ensures (r.up, r.dir) == GravityRemap(from, b.moving.level, b.up, b.dir, b.warping)
    ensures r.state == GravityChange && r.useGravity && r.grav.pred == Some(from)
    ensures r.grav.gradual <==> from == Moving && b.moving.level == -1
    ensures r.events == b.events + [GravitySet(Neg(r.up)), CameraGravChange]
  {
    var (nu, nd) := GravityRemap(from, b.moving.level, b.up, b.dir, b.warping);
    var gradual := from == Moving && b.moving.level == -1;
    var g := GravState(gradual, nu, nd,
                       if gradual then U.Sub(b.pos, U.Scale(c.sphereRadius, ToVec3(b.up))) else b.grav.contact,
                       if gradual then 0.0 else b.grav.t, Some(from));
    b.(state := GravityChange, grav := g, up := nu, dir := nd, useGravity := true,
       events := b.events + [GravitySet(Neg(nu)), CameraGravChange])
  }

  /** OnEnterState of state `to`, entered from `from`. */
  function EnterSpec(c: Config, b: Body, to: PlayerState, from: PlayerState, p: Probes): (r: Body)
    requires to == GravityChange ==> from in {Moving, Warping}
    ensures r.state == to
  {
    match to
    case Idle => b.(state := Idle, events := b.events + [AnimIsMoving(false)])
    case Moving => b.(state := Moving, moving := MoveEnter(c, b.moving, from, p, b.pos, b.up, b.dir))
    case Warping =>
      b.(state := Warping, useGravity := false, events := b.events + [AnimWarp],
         warping := WarpState(b.dir, Neg(b.up), WarpTarget(c, from == Moving || p.forwardHeld, b.pos, b.up, b.dir), 0.0, false))
    case Falling => b.(state := Falling, falling := FallState(false, 0.0))
    case GravityChange => GravEnter(c, b, from)
  }

  /** StateMachine.ChangeState: OnExitState(to) on the current state, then OnEnterState(from)
      on the new one. */
  function ChangeStateSpec(c: Config, b: Body, to: PlayerState, p: Probes): (r: Body)
    requires Orthogonal(b.up, b.dir)
    requires to == GravityChange ==> b.state in {Moving, Warping}
    ensures r.state == to
  {
    EnterSpec(c, ExitSpec(b, p), to, b.state, p)
  }

  /** sm.currentState.CheckTransitions() with the wiring of InitStateMachine:
      Idle: [Moving if forward held and CanMove; Warping if warp pressed and CanWarp],
      Falling: [Idle if hit], Moving: [Idle if arrived; GravityChange (trigger only);
      Warping if warp pressed and CanWarp], GravityChange: [Moving, Falling] and
      Warping: [GravityChange], all trigger only. Every transition whose condition holds fires,
      each condition evaluated after the previous ones fired. */
  function CheckTransitionsSpec(c: Config, b: Body, p: Probes): (r: Body)
    requires Orthogonal(b.up, b.dir)
    ensures b.state in {Warping, GravityChange} ==> r == b
    ensures b.state == Falling ==> r.state in {Falling, Idle}
    ensures r.state != b.state ==> r.state in {Idle, Moving, Warping}
    ensures b.state == Idle && !p.warpPressed && !(p.forwardHeld && CanMove(b.state, p)) ==> r == b
  {
    match b.state
    case Idle =>
      var b1 := if p.forwardHeld && CanMove(b.state, p) then ChangeStateSpec(c, b, Moving, p) else b;
      WarpIfAllowed(c, b1, p)
    case Moving =>
      var b1 := if b.moving.arrived then ChangeStateSpec(c, b, Idle, p) else b;
      WarpIfAllowed(c, b1, p)
    case Falling => if b.falling.hit then ChangeStateSpec(c, b, Idle, p) else b
    case Warping => b
    case GravityChange => b
  }

  /** The transition to Warping shared by Idle and Moving. */
  function WarpIfAllowed(c: Config, b: Body, p: Probes): (r: Body)
    requires Orthogonal(b.up, b.dir)
    ensures r.state in {b.state, Warping}
    ensures !(p.warpPressed && CanWarpSpec(c.boxSize, b.state, p)) ==> r == b
  {
    if p.warpPressed && CanWarpSpec(c.boxSize, b.state, p) then ChangeStateSpec(c, b, Warping, p) else b
  }

  /** The engine's length of the current move matches its start and target. */
  predicate MoveLengthOk(m: MoveState, p: Probes) {
    p.moveLength >= 0.0 && p.moveLength * p.moveLength == U.SqLen(U.Sub(m.target, m.start))
  }

  /** Moving.UpdateState: ease towards the target; a move up or down that arrives clears the
      arrival flag and changes gravity; a level move that arrives with forward held and CanMove
      continues straight into the next move; the clock always advances. */
  function MovingUpdate(c: Config, b: Body, p: Probes): (r: Body)
    requires Orthogonal(b.up, b.dir) && b.state == Moving && MoveLengthOk(b.moving, p)
  {
    var b3 := ContinueMove(c, ArriveUpDown(c, EaseStep(c, b, p), p), p);
    b3.(moving := b3.moving.(t := b3.moving.t + p.dt))
  }

  /** MoveUpDown: a move up or down that has arrived clears the flag and changes gravity. */
  function ArriveUpDown(c: Config, b: Body, p: Probes): (r: Body)
    requires Orthogonal(b.up, b.dir) && b.state == Moving
  {
    if b.moving.level != 0 && b.moving.arrived
    then ChangeStateSpec(c, b.(moving := b.moving.(arrived := false)), GravityChange, p)
    else b
  }

  /** Continue(): after an arrival with forward held and CanMove, Moving is entered again
      without ease-in. */
  function ContinueMove(c: Config, b: Body, p: Probes): (r: Body)
  {
    if b.moving.arrived && p.forwardHeld && CanMove(b.state, p)
    then EnterSpec(c, b.(moving := b.moving.(easeIn := false)), Moving, Moving, p)
    else b
  }

  /** MoveForward: the position eased along the move, and whether it has arrived. */
  function EaseStep(c: Config, b: Body, p: Probes): (r: Body)
    requires MoveLengthOk(b.moving, p)
    ensures r == b.(pos := r.pos, moving := b.moving.(arrived := r.moving.arrived))
  {
    var m := b.moving;
    var (progress, done) := U.QuadEaseIn(m.t, m.easeInTime, c.speed, p.moveLength);
    b.(pos := U.EasePosition(m.start, m.target, p.moveLength, progress), moving := m.(arrived := done))
  }

  /** Warping.UpdateState: nothing until the fade-in phase; then jump to the target once, hover
      for HoverTime and change gravity. */
  function WarpingUpdate(c: Config, b: Body, p: Probes): (r: Body)
    requires Orthogonal(b.up, b.dir) && b.state == Warping
  {
    if !p.fadeIn then b
    else
      var b2 := Hover(b, p);
      if b2.warping.t > HoverTime then ChangeStateSpec(c, b2, GravityChange, p) else b2
  }

  /** The fade-in phase of a warp: the jump to the target on its first tick, and the hover
      clock advanced by the tick. */
  function Hover(b: Body, p: Probes): (r: Body)
    ensures r.state == b.state && r.up == b.up && r.dir == b.dir
  {
    var b1 := if !b.warping.hovering then b.(pos := b.warping.target, warping := b.warping.(hovering := true)) else b;
    b1.(warping := b1.warping.(t := b1.warping.t + p.dt))
  }

  /** Falling.UpdateState: record whether the ground is within reach, count time only while
      nothing lies below, and die on every tick past the threshold. */
  function FallingUpdate(b: Body, p: Probes): (r: Body)
    requires b.state == Falling
  {
    var t := if !p.floorBelow then b.falling.t + p.dt else b.falling.t;
    var b1 := b.(falling := FallState(p.ground, t));
    if t > FallThreshold then b1.(events := b1.events + [Died]) else b1
  }

  /** GravityChange.UpdateState: an instant change goes back to Moving after a move and to
      Falling after a warp; a gradual turn rotates at m_angularSpeed and goes back to Moving
      once it has turned 90 degrees. */
  function GravityChangeUpdate(c: Config, b: Body, p: Probes): (r: Body)
    requires Inv(c, b) && b.state == GravityChange
  {
    if !b.grav.gradual then
      if b.grav.pred == Some(Moving) then ChangeStateSpec(c, b, Moving, p)
      else ChangeStateSpec(c, b, Falling, p)
    else
      var b1 := GradualTurn(c, b, p);
      if b1.grav.t >= 90.0 then ChangeStateSpec(c, b1.(useGravity := true), Moving, p) else b1
  }

  /** One tick of a gradual turn: the engine's rotated position, and the angle turned grows by
      m_angularSpeed times the tick. */
  function GradualTurn(c: Config, b: Body, p: Probes): (r: Body)
    requires c.boxSize > 0.0
  {
    b.(pos := p.rotatedPos, grav := b.grav.(t := b.grav.t + AngularSpeed(c) * p.dt))
  }

  /** sm.Update(): UpdateState of the current state. */
  function UpdateSpec(c: Config, b: Body, p: Probes): (r: Body)
    requires Inv(c, b) && (b.state == Moving ==> MoveLengthOk(b.moving, p))
    ensures b.state == Idle ==> r == b
    ensures b.state == Falling ==> r.state == Falling && r.pos == b.pos && r.up == b.up && r.dir == b.dir
    ensures b.state == Moving ==> r.state in {Moving, GravityChange}
    ensures b.state == Warping ==> r.state in {Warping, GravityChange}
    ensures b.state == Warping && !p.fadeIn ==> r == b
    ensures b.state == GravityChange ==> r.state in {GravityChange, Moving, Falling}
  {
    match b.state
    case Idle => b
    case Moving => MovingUpdate(c, b, p)
    case Warping => WarpingUpdate(c, b, p)
    case Falling => FallingUpdate(b, p)
    case GravityChange => GravityChangeUpdate(c, b, p)
  }

  /** PlayerController.Reset: back to the start pose, sm.Reset() (exit the current state, enter
      Idle), gravity on and the sphere shown. */
  function ResetSpec(c: Config, b: Body, p: Probes): (r: Body)
    requires ConfigOk(c)
  {
    var b1 := b.(up := c.startUp, dir := c.startDir, pos := c.startPos);
    ChangeStateSpec(c, b1, Idle, p).(useGravity := true, sphereActive := true)
  }

  // ---------------------------------------------------------------------------------------
  // Properties of the transition table

  lemma ExitKeepsInv(c: Config, b: Body, p: Probes)
    requires Inv(c, b)
    ensures var r := ExitSpec(b, p);
      && r.state == b.state && r.up == b.up && r.dir == b.dir
      && Orthogonal(r.warping.boxDir, r.warping.newDir) && Orthogonal(r.grav.up, r.grav.dir)
      && r.moving.t == b.moving.t && r.moving.easeInTime == b.moving.easeInTime
      && r.falling == b.falling && r.grav == b.grav && r.warping.t == b.warping.t
      && r.moving.level == b.moving.level
      && (b.state == Warping ==> Orthogonal(r.warping.boxDir, r.warping.newDir))
  {
    if b.state == Warping {
      var face := FirstSolid(WarpCandidates(b.up, b.dir), p.solid);
      if face.Some? {
        WarpReorientation(b.up, b.dir, face.value);
        assert Orthogonal(Neg(face.value), NewDir(b.up, b.dir, face.value));
      }
    }
  }

  /** Every state change keeps the invariant: in particular the orientation stays an
      orthonormal pair of axes through every gravity change. */
  lemma {:induction false} ChangeStateKeepsInv(c: Config, b: Body, to: PlayerState, p: Probes)
    requires Inv(c, b) && p.dt >= 0.0
    requires to == GravityChange ==> b.state in {Moving, Warping}
    ensures Inv(c, ChangeStateSpec(c, b, to, p))
  {
    ExitKeepsInv(c, b, p);
    var e := ExitSpec(b, p);
    if to == GravityChange {
      if b.state == Warping {
        assert e.warping == WarpExit(b, p).warping;
        assert Orthogonal(e.warping.boxDir, e.warping.newDir);
      }
      GravityRemapOrthogonal(b.state, e.moving.level, e.up, e.dir, e.warping);
    }
  }

  lemma {:induction false} CheckTransitionsKeepsInv(c: Config, b: Body, p: Probes)
    requires Inv(c, b) && p.dt >= 0.0
    ensures Inv(c, CheckTransitionsSpec(c, b, p))
  {
    match b.state
    case Idle =>
      var b1 := if p.forwardHeld && CanMove(b.state, p) then ChangeStateSpec(c, b, Moving, p) else b;
      if p.forwardHeld && CanMove(b.state, p) { ChangeStateKeepsInv(c, b, Moving, p); }
      if p.warpPressed && CanWarpSpec(c.boxSize, b1.state, p) { ChangeStateKeepsInv(c, b1, Warping, p); }
    case Moving =>
      var b1 := if b.moving.arrived then ChangeStateSpec(c, b, Idle, p) else b;
      if b.moving.arrived { ChangeStateKeepsInv(c, b, Idle, p); }
      if p.warpPressed && CanWarpSpec(c.boxSize, b1.state, p) { ChangeStateKeepsInv(c, b1, Warping, p); }
    case Falling =>
      if b.falling.hit { ChangeStateKeepsInv(c, b, Idle, p); }
    case Warping =>
    case GravityChange =>
  }

  lemma MovingUpdateKeepsInv(c: Config, b: Body, p: Probes)
    requires Inv(c, b) && p.dt >= 0.0 && b.state == Moving && MoveLengthOk(b.moving, p)
    ensures Inv(c, MovingUpdate(c, b, p))
  {
    var b1 := EaseStep(c, b, p);
    if b.moving.level != 0 && b1.moving.arrived {
      ChangeStateKeepsInv(c, b1.(moving := b1.moving.(arrived := false)), GravityChange, p);
    }
  }

  lemma WarpingUpdateKeepsInv(c: Config, b: Body, p: Probes)
    requires Inv(c, b) && p.dt >= 0.0 && b.state == Warping
    ensures Inv(c, WarpingUpdate(c, b, p))
  {
    if p.fadeIn {
      var b2 := Hover(b, p);
      assert Inv(c, b2);
      if b2.warping.t > HoverTime { ChangeStateKeepsInv(c, b2, GravityChange, p); }
    }
  }

  lemma GravityChangeUpdateKeepsInv(c: Config, b: Body, p: Probes)
    requires Inv(c, b) && p.dt >= 0.0 && b.state == GravityChange
    ensures Inv(c, GravityChangeUpdate(c, b, p))
  {
    if !b.grav.gradual {
      if b.grav.pred == Some(Moving) { ChangeStateKeepsInv(c, b, Moving, p); }
      else { ChangeStateKeepsInv(c, b, Falling, p); }
    } else {
      var b1 := GradualTurn(c, b, p);
      if b1.grav.t >= 90.0 { ChangeStateKeepsInv(c, b1.(useGravity := true), Moving, p); }
    }
  }

  /** Every tick keeps the invariant. */
  lemma {:induction false} UpdateKeepsInv(c: Config, b: Body, p: Probes)
    requires Inv(c, b) && p.dt >= 0.0 && (b.state == Moving ==> MoveLengthOk(b.moving, p))
    ensures Inv(c, UpdateSpec(c, b, p))
  {
    match b.state
    case Idle =>
    case Moving => MovingUpdateKeepsInv(c, b, p);
    case Warping => WarpingUpdateKeepsInv(c, b, p);
    case Falling =>
    case GravityChange => GravityChangeUpdateKeepsInv(c, b, p);
  }

  /** Reset keeps the invariant although it changes the orientation under a running warp:
      the warp's exit recomputes the face and the direction from the new orientation. */
  lemma {:induction false} ResetKeepsInv(c: Config, b: Body, p: Probes)
    requires Inv(c, b)
    ensures Inv(c, ResetSpec(c, b, p)) && ResetSpec(c, b, p).state == Idle
  {
    var b1 := b.(up := c.startUp, dir := c.startDir, pos := c.startPos);
    if b.state == Warping {
      var face := FirstSolid(WarpCandidates(b1.up, b1.dir), p.solid);
      if face.Some? { WarpReorientation(b1.up, b1.dir, face.value); }
    }
  }

  /** Moving reaches Idle only through the arrival flag; a move up or down that arrives goes to
      GravityChange with the flag cleared instead, and a tick never lands in Idle. */
  lemma MovingExits(c: Config, b: Body, p: Probes)
    requires Inv(c, b) && b.state == Moving && MoveLengthOk(b.moving, p)
    ensures !b.moving.arrived ==> CheckTransitionsSpec(c, b, p).state in {Moving, Warping}
    ensures b.moving.arrived ==> CheckTransitionsSpec(c, b, p).state in {Idle, Warping}
    ensures UpdateSpec(c, b, p).state in {Moving, GravityChange}
    ensures b.moving.level != 0 && U.QuadEaseIn(b.moving.t, b.moving.easeInTime, c.speed, p.moveLength).1 ==>
      UpdateSpec(c, b, p).state == GravityChange && !UpdateSpec(c, b, p).moving.arrived
  {
  }

  /** A continuation re-enters Moving without passing through Idle: the clock restarts (and
      has advanced by one tick at the end of that tick), with no ease-in and the ease-in flag
      off until Moving is exited. */
  lemma Continuation(c: Config, b: Body, p: Probes)
    requires Inv(c, b) && b.state == Moving && MoveLengthOk(b.moving, p)
    requires b.moving.level == 0 && U.QuadEaseIn(b.moving.t, b.moving.easeInTime, c.speed, p.moveLength).1
    requires p.forwardHeld && CanMove(Moving, p)
    ensures var r := UpdateSpec(c, b, p);
      && r.state == Moving && r.moving.t == p.dt && r.moving.easeInTime == 0.0
      && !r.moving.easeIn && !r.moving.arrived
      && r.events == b.events
  {
  }

  /** Leaving Moving, and only that, restores the ease-in flag. */
  lemma EaseInRestoredOnExit(c: Config, b: Body, to: PlayerState, p: Probes)
    requires Inv(c, b) && b.state == Moving
    requires to == GravityChange ==> b.state in {Moving, Warping}
    requires to != Moving
    ensures ChangeStateSpec(c, b, to, p).moving.easeIn
  {
  }

  /** GravityChange returns to Moving after a move and goes to Falling after a warp; Warping
      leaves only to GravityChange, and never through CheckTransitions. */
  lemma GravityAndWarpExits(c: Config, b: Body, p: Probes)
    requires Inv(c, b)
    ensures b.state == GravityChange && !b.grav.gradual && b.grav.pred == Some(Moving) ==>
      UpdateSpec(c, b, p).state == Moving
    ensures b.state == GravityChange && b.grav.pred == Some(Warping) ==>
      UpdateSpec(c, b, p).state == Falling
    ensures b.state == Warping ==> CheckTransitionsSpec(c, b, p).state == Warping
    ensures b.state == Warping ==> UpdateSpec(c, b, p).state in {Warping, GravityChange}
    ensures b.state == GravityChange ==> CheckTransitionsSpec(c, b, p) == b
  {
  }

  /** Entering GravityChange always leaves the rigid body's gravity on, and points
      Physics.gravity against the new up. */
  lemma GravityChangeEndsWithGravityOn(c: Config, b: Body, p: Probes)
    requires Inv(c, b) && b.state in {Moving, Warping}
    ensures var r := ChangeStateSpec(c, b, GravityChange, p);
      r.useGravity && r.events[|r.events| - 2] == GravitySet(Neg(r.up))
  {
  }

  /** A warp that finds no face to stand on re-enables gravity, and the gravity change that
      follows leaves up and dir as they were. */
  lemma WarpWithoutFaceKeepsOrientation(c: Config, b: Body, p: Probes)
    requires Inv(c, b) && b.state == Warping
    requires forall a :: a in WarpCandidates(b.up, b.dir) ==> a !in p.solid
    ensures ExitSpec(b, p).useGravity
    ensures var r := ChangeStateSpec(c, b, GravityChange, p); r.up == b.up && r.dir == b.dir
  {
    assert FirstSolid(WarpCandidates(b.up, b.dir), p.solid).None?;
  }

  /** The Falling timer starts at zero, grows by dt only on ticks where nothing lies below,
      Die is called on every tick once it exceeds the threshold, and Falling leaves for Idle
      with the impact trigger as soon as the short ground probe has hit. */
  lemma FallingTimer(c: Config, b: Body, p: Probes, from: PlayerState)
    requires Inv(c, b)
    ensures var e := EnterSpec(c, b, Falling, from, p); e.falling.t == 0.0 && !e.falling.hit
    ensures b.state == Falling ==>
      var r := UpdateSpec(c, b, p);
      && r.state == Falling
      && r.falling.hit == p.ground
      && r.falling.t == b.falling.t + (if p.floorBelow then 0.0 else p.dt)
      && r.events == b.events + (if r.falling.t > FallThreshold then [Died] else [])
    ensures b.state == Falling && b.falling.hit ==>
      var r := CheckTransitionsSpec(c, b, p);
      r.state == Idle && r.events == b.events + [AnimImpact, AnimIsMoving(false)]
    ensures b.state == Falling && !b.falling.hit ==> CheckTransitionsSpec(c, b, p) == b
  {
  }

  // ---------------------------------------------------------------------------------------
  // The controller

  class PlayerController {
    const config: Config

    var state: PlayerState
    var up: Axis           // world_up
    var dir: Axis          // world_direction
    var pos: U.Vec3        // transform.position
    var useGravity: bool   // m_rb.useGravity
    var sphereActive: bool // player_sphere.activeSelf
    var moving: MoveState
    var warping: WarpState
    var falling: FallState
    var grav: GravState
    var events: seq<Event>

    function Snapshot(): Body
      reads this
    {
      Body(state, up, dir, pos, useGravity, sphereActive, moving, warping, falling, grav, events)
    }

    predicate Valid()
      reads this
    {
      Inv(config, Snapshot())
    }

    /** Awake: the start orientation, then InitStateMachine, whose ChangeState(idle) enters
        Idle with no state to exit. The nested states' fields start at the C# defaults; the
        orientation fields of Warping and GravityChange, which are only read after their state
        has set them, start at the start orientation. */
    constructor(c: Config, position: U.Vec3)
      requires ConfigOk(c)
      ensures Valid() && config == c
      ensures state == Idle && up == c.startUp && dir == c.startDir && pos == position
      ensures events == [AnimIsMoving(false)]
    {
      config := c;
      up := c.startUp;
      dir := c.startDir;
      pos := position;
      useGravity := true;
      sphereActive := true;
      moving := MoveState(0, true, false, U.Vec3(0.0, 0.0, 0.0), U.Vec3(0.0, 0.0, 0.0), 0.0, 0.0);
      warping := WarpState(c.startDir, Neg(c.startUp), U.Vec3(0.0, 0.0, 0.0), 0.0, false);
      falling := FallState(false, 0.0);
      grav := GravState(false, c.startUp, c.startDir, U.Vec3(0.0, 0.0, 0.0), 0.0, None);
      state := Idle;
      events := [AnimIsMoving(false)];
    }

    /** OnExitState of the current state. */
    method ExitCurrent(p: Probes)
      requires Orthogonal(up, dir)
      modifies this
      ensures Snapshot() == ExitSpec(old(Snapshot()), p)
    {
      match state
      case Idle => events := events + [AnimIsMoving(true)];
      case Moving => moving := moving.(easeIn := true);
      case Warping =>
        var face := FirstSolid(WarpCandidates(up, dir), p.solid);
        if face.None? {
          useGravity := true;
        } else {
          warping := warping.(boxDir := face.value, newDir := NewDir(up, dir, face.value));
        }
      case Falling => events := events + [AnimImpact];
      case GravityChange =>
    }

    /** OnEnterState of state `to`, entered from `from`. */
    method Enter(to: PlayerState, from: PlayerState, p: Probes)
      requires to == GravityChange ==> from in {Moving, Warping}
      modifies this
      ensures Snapshot() == EnterSpec(config, old(Snapshot()), to, from, p)
    {
      match to
      case Idle =>
        state := Idle;
        events := events + [AnimIsMoving(false)];
      case Moving =>
        state := Moving;
        moving := MoveEnter(config, moving, from, p, pos, up, dir);
      case Warping =>
        state := Warping;
        var target := WarpTarget(config, from == Moving || p.forwardHeld, pos, up, dir);
        warping := WarpState(dir, Neg(up), target, 0.0, false);
        useGravity := false;
        events := events + [AnimWarp];
      case Falling =>
        state := Falling;
        falling := FallState(false, 0.0);
      case GravityChange =>
        EnterGravityChange(from);
    }

    /** GravityChange.OnEnterState. */
    method EnterGravityChange(from: PlayerState)
      requires from in {Moving, Warping}
      modifies this
      ensures Snapshot() == GravEnter(config, old(Snapshot()), from)
    {
      state := GravityChange;
      var (nu, nd) := GravityRemap(from, moving.level, up, dir, warping);
      var gradual := from == Moving && moving.level == -1;
      if gradual {
        grav := grav.(contact := U.Sub(pos, U.Scale(config.sphereRadius, ToVec3(up))), t := 0.0);
        useGravity := false;
      }
      grav := GravState(gradual, nu, nd, grav.contact, grav.t, Some(from));
      up := nu;
      dir := nd;
      events := events + [GravitySet(Neg(up))];
      useGravity := true;
      events := events + [CameraGravChange];
      assert events == old(events) + [GravitySet(Neg(nu)), CameraGravChange];
    }

    /** sm.ChangeState(to). */
    method ChangeState(to: PlayerState, p: Probes)
      requires Valid() && p.dt >= 0.0
      requires to == GravityChange ==> state in {Moving, Warping}
      modifies this
      ensures Valid()
      ensures Snapshot() == ChangeStateSpec(config, old(Snapshot()), to, p)
    {
      ChangeStateKeepsInv(config, Snapshot(), to, p);
      Switch(to, p);
    }

    /** OnExitState of the current state, then OnEnterState of `to`. */
    method Switch(to: PlayerState, p: Probes)
      requires Orthogonal(up, dir)
      requires to == GravityChange ==> state in {Moving, Warping}
      modifies this
      ensures Snapshot() == ChangeStateSpec(config, old(Snapshot()), to, p)
    {
      var from := state;
      ExitCurrent(p);
      Enter(to, from, p);
    }

    /** Update(): sm.currentState.CheckTransitions(). */
    method CheckTransitions(p: Probes)
      requires Valid() && p.dt >= 0.0
      modifies this
      ensures Valid()
      ensures Snapshot() == CheckTransitionsSpec(config, old(Snapshot()), p)
    {
      CheckTransitionsKeepsInv(config, Snapshot(), p);
      match state
      case Idle =>
        if p.forwardHeld && CanMove(state, p) {
          ChangeState(Moving, p);
        }
        WarpIfRequested(p);
      case Moving =>
        if moving.arrived {
          ChangeState(Idle, p);
        }
        WarpIfRequested(p);
      case Falling =>
        if falling.hit {
          ChangeState(Idle, p);
        }
      case Warping =>
      case GravityChange =>
    }

    /** The warp check shared by Idle and Moving. */
    method WarpIfRequested(p: Probes)
      requires Valid() && p.dt >= 0.0
      modifies this
      ensures Valid()
      ensures Snapshot() == WarpIfAllowed(config, old(Snapshot()), p)
    {
      var ok := CanWarp(p);
      if p.warpPressed && ok {
        ChangeState(Warping, p);
      }
    }

    /** CanWarp: the gate on the current state, the camera and the pause flag, then a scan
        of the hits for one beyond a block; no hit at all allows the warp. */
    method CanWarp(p: Probes) returns (ok: bool)
      ensures ok <==> CanWarpSpec(config.boxSize, state, p)
    {
      if !p.cameraDefault || state == Warping || state == Falling || state == GravityChange || p.paused {
        return false;
      }
      var hits := if state == Moving || p.forwardHeld then p.aheadHits else p.aboveHits;
      var i := 0;
      while i < |hits|
        invariant 0 <= i <= |hits|
        invariant forall j :: 0 <= j < i ==> hits[j] <= config.boxSize
      {
        if hits[i] > config.boxSize {
          assert WarpProbeHits(state, p)[i] > config.boxSize;
          return false;
        }
        i := i + 1;
      }
      return true;
    }

    /** FixedUpdate(): sm.Update(), the current state's UpdateState. */
    method FixedUpdate(p: Probes)
      requires Valid() && p.dt >= 0.0 && (state == Moving ==> MoveLengthOk(moving, p))
      modifies this
      ensures Valid()
      ensures Snapshot() == UpdateSpec(config, old(Snapshot()), p)
    {
      UpdateKeepsInv(config, Snapshot(), p);
      match state
      case Idle =>
      case Moving => UpdateMoving(p);
      case Warping => UpdateWarping(p);
      case Falling => UpdateFalling(p);
      case GravityChange => UpdateGravityChange(p);
    }

    method UpdateMoving(p: Probes)
      requires Valid() && p.dt >= 0.0 && state == Moving && MoveLengthOk(moving, p)
      modifies this
      ensures Snapshot() == MovingUpdate(config, old(Snapshot()), p)
    {
      Advance(p);
      ghost var b2 := Snapshot();
      if moving.arrived && p.forwardHeld && CanMove(state, p) {
        Continue(p);
      }
      assert Snapshot() == ContinueMove(config, b2, p);
      moving := moving.(t := moving.t + p.dt);
    }

    /** The first half of Moving's UpdateState: MoveUpDown on a move up or down, MoveForward
        on a level move. */
    method Advance(p: Probes)
      requires Orthogonal(up, dir) && state == Moving && MoveLengthOk(moving, p)
      modifies this
      ensures Snapshot() == ArriveUpDown(config, EaseStep(config, old(Snapshot()), p), p)
    {
      if moving.level != 0 {
        MoveUpDown(p);
      } else {
        MoveForward(p);
      }
    }

    /** Moving's MoveForward. */
    method MoveForward(p: Probes)
      requires MoveLengthOk(moving, p)
      modifies this
      ensures Snapshot() == EaseStep(config, old(Snapshot()), p)
    {
      var (progress, done) := U.QuadEaseIn(moving.t, moving.easeInTime, config.speed, p.moveLength);
      pos := U.EasePosition(moving.start, moving.target, p.moveLength, progress);
      moving := moving.(arrived := done);
    }

    /** Moving's MoveUpDown. */
    method MoveUpDown(p: Probes)
      requires Orthogonal(up, dir) && state == Moving && moving.level != 0 && MoveLengthOk(moving, p)
      modifies this
      ensures Snapshot() == ArriveUpDown(config, EaseStep(config, old(Snapshot()), p), p)
    {
      MoveForward(p);
      if moving.arrived {
        moving := moving.(arrived := false);
        Switch(GravityChange, p);
      }
    }

    /** Moving's Continue: no ease-in for the next move, and OnEnterState(this). */
    method Continue(p: Probes)
      modifies this
      ensures Snapshot() == EnterSpec(config, old(Snapshot()).(moving := old(moving).(easeIn := false)), Moving, Moving, p)
    {
      moving := moving.(easeIn := false);
      Enter(Moving, Moving, p);
    }

    method UpdateWarping(p: Probes)
      requires Valid() && p.dt >= 0.0 && state == Warping
      modifies this
      ensures Snapshot() == WarpingUpdate(config, old(Snapshot()), p)
    {
      if !p.fadeIn {
        return;
      }
      HoverStep(p);
      if warping.t > HoverTime {
        Switch(GravityChange, p);
      }
    }

    method HoverStep(p: Probes)
      modifies this
      ensures Snapshot() == Hover(old(Snapshot()), p)
    {
      if !warping.hovering {
        pos := warping.target;
        warping := warping.(hovering := true);
      }
      warping := warping.(t := warping.t + p.dt);
    }

    method UpdateFalling(p: Probes)
      requires state == Falling
      modifies this
      ensures Snapshot() == FallingUpdate(old(Snapshot()), p)
    {
      falling := falling.(hit := p.ground);
      if !p.floorBelow {
        falling := falling.(t := falling.t + p.dt);
      }
      if falling.t > FallThreshold {
        Die();
      }
    }

    method UpdateGravityChange(p: Probes)
      requires Valid() && p.dt >= 0.0 && state == GravityChange
      modifies this
      ensures Snapshot() == GravityChangeUpdate(config, old(Snapshot()), p)
    {
      ghost var b0 := Snapshot();
      if !grav.gradual {
        if grav.pred == Some(Moving) {
          assert GravityChangeUpdate(config, b0, p) == ChangeStateSpec(config, b0, Moving, p);
          Switch(Moving, p);
        } else {
          assert GravityChangeUpdate(config, b0, p) == ChangeStateSpec(config, b0, Falling, p);
          Switch(Falling, p);
        }
      } else {
        pos := p.rotatedPos;
        grav := grav.(t := grav.t + AngularSpeed(config) * p.dt);
        assert Snapshot() == GradualTurn(config, b0, p);
        if grav.t >= 90.0 {
          useGravity := true;
          Switch(Moving, p);
        }
      }
    }

    /** Die(): GameController.gc.Lost(), recorded as an event. */
    method Die()
      modifies this
      ensures Snapshot() == old(Snapshot()).(events := old(events) + [Died])
    {
      events := events + [Died];
    }

    /** Enable(enable): shows or hides the sphere. */
    method Enable(enable: bool)
      modifies this
      ensures Snapshot() == old(Snapshot()).(sphereActive := enable)
    {
      sphereActive := enable;
    }

    /** Reset(): back to the start pose, sm.Reset(), gravity on, sphere shown. */
    method Reset(p: Probes)
      requires Valid() && p.dt >= 0.0
      modifies this
      ensures Valid() && state == Idle
      ensures Snapshot() == ResetSpec(config, old(Snapshot()), p)
    {
      ResetKeepsInv(config, Snapshot(), p);
      up := config.startUp;
      dir := config.startDir;
      pos := config.startPos;
      var from := state;
      ExitCurrent(p);
      Enter(Idle, from, p);
      useGravity := true;
      sphereActive := true;
    }
  }
}
