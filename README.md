# KulaWarp in Dafny

KulaWarp is a Unity puzzle game. A sphere rolls over a level built from unit cubes. It can
roll over edges onto the next face, climb onto a block ahead, and warp two blocks ahead or up
to land on a new face with a new gravity direction. This project models the game logic that
drives that sphere and its surroundings, and proves properties of the model:

- **StateMachines**: the generic state machine that the player and the camera are built on
  (`Scripts/StateMachine.cs`). It records the calls it makes on its states in order.
- **Player**: the player controller (`Scripts/MonoBehaviour/PlayerController.cs`).
  - It has the states Idle, Moving, Warping, Falling and GravityChange.
  - The move and warp decisions are pure functions.
  - The orientation is a pair of integer axes (up, walking direction).
  - Each state hook is a function on a snapshot of the controller. The class follows those
    functions.
- **Camera**: the state-machine camera (`Scripts/MonoBehaviour/Controller/CameraController.cs`).
  It has seven states, quarter and half turns about the player's up axis, a gravity-change
  follow, and the tilt offsets.
- **EnumCamera**: the older camera (`Scripts/MonoBehaviour/CameraController.cs`). It is driven
  by a single enumeration field.
- **Session**: the level bookkeeping (`LevelController.cs`) and the game controller, in its
  two copies. It covers points, energy, the exit colour, the time limit, the game state, the
  time scale and the save data.
- **MainMenu** and **MenuCube**: the main menu in its two copies.
  - The menu is a stack of rotating menu cubes, with panels over it.
  - Each cube shows four sides and cycles through its entries with wrap-around.
- **Utils**: the vector helpers of `Scripts/Utils.cs` and `Scripts/myInterpolation.cs`. These
  are axis-selective rounding and flooring, component access, the grid snap and the quadratic
  ease-in.
- **LevelGenerator**: the editor's connected-component search over the level's blocks
  (`mergeBlockGeometry`, `addNeighbors`).
- **MeshCombiner**: `removeInsideFaces`. It removes the vertices of faces that point into a
  neighbouring cube and renumbers the triangle indices.
- **Particles**: the particle-system pool.
- **Axes** and **Seqs**: shared helpers. Axes covers axis vectors with cross and dot products;
  Seqs covers distinct sequences.

The engine is replaced by what it answers. Raycasts, input axes and buttons, animator phases,
`Time.deltaTime` and the floating-point rotations arrive as parameters, in the records
`Probes`, `CamInputs`, `EnumCamInputs`, `MenuInput` and `GameInput`. What a controller
asks of the engine or of another controller is appended to an event sequence, apart from the
menu animations listed under "Left out". Examples are animator triggers, `Physics.gravity`
writes, scene loads, saves, HUD calls and sounds.

Vectors are triples of reals, and integers are unbounded. `Mathf.RoundToInt` is C#'s
round-half-to-even. C#'s `%` truncates toward zero, and is written out as `MenuCube.CsRem`.

Where the comments and the code disagree, the model follows the code:

- `StateMachine.Reset` is commented as not running OnExitState, but it does.
- `mergeBlockGeometry` tests `Capacity` where it means `Count`. An empty list reaches the same
  early return either way.
- The gradual gravity change in `PlayerController.cs` switches the rigid body's gravity off and
  then, in the same OnEnterState, back on. The model keeps both writes, and the lemma
  `GravityChangeEndsWithGravityOn` states the outcome.
- `L1Norm` is a signed sum of the components, not a norm. `Utils.L1NormIsSignedSum` states
  this.

## Model

| member | source | states |
|---|---|---|
| StateMachines.SwitchCalls | KulaWarp/Assets/Scripts/StateMachine.cs:21-29 | A state change calls OnExitState on the old state exactly when there is one, then OnEnterState on the new state with the old one as predecessor |
| StateMachines.EveryHoldingTransitionFires | KulaWarp/Assets/Scripts/StateMachine.cs:90-95 | CheckTransitions does not stop at the first transition: every transition whose condition holds is triggered |
| StateMachines.OnlyHoldingTransitionsFire | KulaWarp/Assets/Scripts/StateMachine.cs:75-88 | Every target CheckTransitions switches to comes from a transition whose condition held |
| StateMachines.TriggerOnlyNeverFires | KulaWarp/Assets/Scripts/StateMachine.cs:114-120 | A transition built without a condition never fires from CheckTransitions, only through Trigger |
| StateMachines.StateMachine.constructor | KulaWarp/Assets/Scripts/StateMachine.cs:13-19 | A new machine has no current state, no default state, no states and no transitions |
| StateMachines.StateMachine.ChangeState | KulaWarp/Assets/Scripts/StateMachine.cs:21-29 | The new state becomes current after the exit and enter calls; nothing else changes |
| StateMachines.StateMachine.Update | KulaWarp/Assets/Scripts/StateMachine.cs:31-35 | UpdateState is called once on the current state, or nothing happens without one |
| StateMachines.StateMachine.AddState | KulaWarp/Assets/Scripts/StateMachine.cs:37-40 | The state is appended to the state list; nothing else changes |
| StateMachines.StateMachine.AddTransition | KulaWarp/Assets/Scripts/StateMachine.cs:75-88 | The transition is appended to its source state's list; every other state's list is unchanged |
| StateMachines.StateMachine.Reset | KulaWarp/Assets/Scripts/StateMachine.cs:42-51 | Reset is a state change to the default state, including OnExitState on the state left |
| StateMachines.StateMachine.SetDefaultState | KulaWarp/Assets/Scripts/StateMachine.cs:53-56 | Only the default state changes |
| StateMachines.StateMachine.Trigger | KulaWarp/Assets/Scripts/StateMachine.cs:122-125 | Triggering a transition is a state change to its target |
| StateMachines.StateMachine.CheckTransitions | KulaWarp/Assets/Scripts/StateMachine.cs:90-95 | The machine ends in the last fired target, having made the exit and enter calls of each fired transition in order |
| Utils.RoundToInt | KulaWarp/Assets/Scripts/Utils.cs:109-116 | The nearest integer, within one half; ties go to the even integer; an integral input is kept |
| Utils.FloorToInt | KulaWarp/Assets/Scripts/Utils.cs:126-133 | The largest integer not above the input |
| Utils.Round | KulaWarp/Assets/Scripts/Utils.cs:109-116 | Each component selected by the axis becomes an integer within one half of it; every other component is kept |
| Utils.RoundIdempotent | KulaWarp/Assets/Scripts/myInterpolation.cs:91-98 | Rounding twice along the same axis equals rounding once |
| Utils.Floor | KulaWarp/Assets/Scripts/Utils.cs:126-133 | Each selected component becomes its integer part from below; every other component is kept |
| Utils.L1NormIsSignedSum | KulaWarp/Assets/Scripts/myInterpolation.cs:117-120 | L1Norm is linear, and negative or zero on non-zero vectors, so it is a signed sum and not a norm |
| Utils.L1Norm | KulaWarp/Assets/Scripts/myInterpolation.cs:117-120 | On a unit axis the sum is the axis's sign: 1 exactly on the three positive axes, -1 on the others |
| Utils.Picked | KulaWarp/Assets/Scripts/Utils.cs:140-144 | The accessed component is x if the axis selects x, else y if it selects y, else z |
| Utils.GetComponent | KulaWarp/Assets/Scripts/Utils.cs:140-144 | Reads the picked component, with x taking priority and z as the fallback |
| Utils.SetComponent | KulaWarp/Assets/Scripts/Utils.cs:146-158 | The picked component becomes the value, and the other two are kept |
| Utils.GetAfterSet | KulaWarp/Assets/Scripts/myInterpolation.cs:122-140 | getComponent after setComponent along the same axis returns the value written |
| Utils.SnapToGridUp | KulaWarp/Assets/Scripts/Utils.cs:166-169 | Components the up axis does not touch are unchanged |
| Utils.SnapToGridUpOnYAxis | KulaWarp/Assets/Scripts/Utils.cs:166-169 | With up = +y, the point rests sphereRadius above a face at integer height minus boxSize/2, within one half of its old height, and x and z are unchanged |
| Utils.SnapToGridUpOnAxis | KulaWarp/Assets/Scripts/Utils.cs:160-169 | For each of the six unit up axes, the up component moved back by boxSize/2 - sphereRadius along up is the integer nearest the original up component (so within one half of it), and the two other components are unchanged |
| Utils.SnapToGridAllOnLattice | KulaWarp/Assets/Scripts/Utils.cs:171-174 | SnapToGridAll puts the point on the integer lattice shifted by boxSize/2 - sphereRadius along up |
| Utils.SnapToGridAll | KulaWarp/Assets/Scripts/Utils.cs:171-174 | Every component, moved back by boxSize/2 - sphereRadius along up, lies within one half of the original |
| Utils.QuadEaseIn | KulaWarp/Assets/Scripts/Utils.cs:66-85 | The progress never exceeds the distance; done holds exactly when the uncapped progress reaches it; otherwise the progress is the uncapped one |
| Utils.EasePosition | KulaWarp/Assets/Scripts/Utils.cs:80-84 | Full progress lands on the target, and a zero distance stays at the start |
| Utils.EaseInJunction | KulaWarp/Assets/Scripts/Utils.cs:72-75 | The quadratic and linear pieces meet at easeIn/2 with equal value and slope |
| Utils.QuadPieceBound | KulaWarp/Assets/Scripts/Utils.cs:72-73 | On the quadratic piece, progress grows but never faster than speed |
| Utils.QuadBelowTangent | KulaWarp/Assets/Scripts/Utils.cs:72-75 | Before the junction, the quadratic piece lies on or above the linear piece's line, which is its tangent |
| Utils.LinearPieceStep | KulaWarp/Assets/Scripts/Utils.cs:74-75 | On the linear piece, progress grows at exactly speed |
| Utils.AcrossJunction | KulaWarp/Assets/Scripts/Utils.cs:72-75 | Crossing the junction, progress neither decreases nor grows faster than speed |
| Utils.EaseInMonotoneAndBounded | KulaWarp/Assets/Scripts/myInterpolation.cs:38-75 | The documented promise: for t >= 0 the uncapped progress is non-decreasing, and grows at most at speed |
| Utils.QuadEaseInMonotoneAndBounded | KulaWarp/Assets/Scripts/Utils.cs:48-85 | The capped progress is non-decreasing, bounded by the distance and by speed, and once done stays done |
| Axes.CrossOfOrthogonal | KulaWarp/Assets/Scripts/MonoBehaviour/PlayerController.cs:292-303 | The cross product of two perpendicular axes is an axis perpendicular to both, so the warp's side probes are axes |
| Player.CanMove | KulaWarp/Assets/Scripts/MonoBehaviour/PlayerController.cs:100-132 | No move while warping, falling or changing gravity, while the camera is busy or while paused; otherwise a move is allowed iff there is a hit ahead or neither side probe hits |
| Player.NextBlockLevel | KulaWarp/Assets/Scripts/MonoBehaviour/PlayerController.cs:547-561 | Returns 1 for a block closer than one unit ahead, 0 for level ground and -1 for no hit, and is exhaustive |
| Player.MoveTarget | KulaWarp/Assets/Scripts/MonoBehaviour/PlayerController.cs:520-527 | The target is a full block ahead on level ground, half a block before an edge, and up to contact before a climb |
| Player.MoveTargetAlongDir | KulaWarp/Assets/Scripts/MonoBehaviour/PlayerController.cs:529-534 | Every move goes straight along the walking direction by the level's offset (a full block, half a block, or half a block less the sphere radius), and its squared length is that offset squared |
| Player.FirstSolid | KulaWarp/Assets/Scripts/MonoBehaviour/PlayerController.cs:292-308 | The warp lands on the first candidate face whose probe hits, in probe order, or on none exactly when no probe hits |
| Player.WarpReorientation | KulaWarp/Assets/Scripts/MonoBehaviour/PlayerController.cs:313-314 | After a warp the new direction is perpendicular to the new up, and the old up is used exactly when the new gravity is parallel to the old direction |
| Player.GravityRemapOrthogonal | KulaWarp/Assets/Scripts/MonoBehaviour/PlayerController.cs:391-419 | Every gravity change (edge down, climb up, after a warp) installs a perpendicular up/direction pair |
| Player.EdgeRollsCompose | KulaWarp/Assets/Scripts/MonoBehaviour/PlayerController.cs:391-407 | Rolling over an edge and climbing back restores the orientation, and four edge rolls go once around a block |
| Player.WarpExit | KulaWarp/Assets/Scripts/MonoBehaviour/PlayerController.cs:288-315 | Leaving Warping, the face found becomes the gravity face with a direction chosen against it; with no face only gravity is switched back on |
| Player.MoveEnter | KulaWarp/Assets/Scripts/MonoBehaviour/PlayerController.cs:470-491 | A move restarts its clock and starts at the snapped position; after a gravity change it is level with no ease-in and targets the snapped point half a block ahead; otherwise the level and target come from the probe, and the ease-in applies unless this is a continuation; start and target lie on the grid lattice shifted along up |
| Player.CanWarpSpec | KulaWarp/Assets/Scripts/MonoBehaviour/PlayerController.cs:134-170 | A warp is refused during a warp, a fall or a gravity change, while the camera is not at rest, or while the game is paused; with the gate open and nothing hit it is allowed |
| Player.WarpTarget | KulaWarp/Assets/Scripts/MonoBehaviour/PlayerController.cs:278-281 | A forward warp lands, once moved back by 0.5 - sphereRadius along up, on the grid lattice of the snapped position |
| Player.GravityRemap | KulaWarp/Assets/Scripts/MonoBehaviour/PlayerController.cs:391-419 | After a move the new up and direction are the old direction and up or their opposites, perpendicular when the old ones were; after a warp they are the face found and the direction chosen |
| Player.ExitSpec | KulaWarp/Assets/Scripts/MonoBehaviour/PlayerController.cs:249-496 | No exit moves or turns the player or changes its state; leaving Moving re-arms the ease-in; only leaving Warping touches the warp fields or gravity |
| Player.CheckTransitionsSpec | KulaWarp/Assets/Scripts/MonoBehaviour/PlayerController.cs:193-215 | Warping and GravityChange never leave through CheckTransitions; Falling goes only to Idle; any change goes to Idle, Moving or Warping; an Idle player with no input stays |
| Player.WarpIfAllowed | KulaWarp/Assets/Scripts/MonoBehaviour/PlayerController.cs:200-208 | The state changes only to Warping, and only when warp is pressed and CanWarp holds |
| Player.EaseStep | KulaWarp/Assets/Scripts/MonoBehaviour/PlayerController.cs:529-534 | Only the position and the arrival flag change |
| Player.Hover | KulaWarp/Assets/Scripts/MonoBehaviour/PlayerController.cs:317-333 | Hovering keeps the state, up and direction |
| Player.UpdateSpec | KulaWarp/Assets/Scripts/MonoBehaviour/PlayerController.cs:236-571 | Idle does nothing; Falling stays Falling without moving or turning; Moving goes on or changes gravity; Warping waits for the fade-in, then goes on or changes gravity; GravityChange goes on or returns to Moving or Falling |
| Player.GravEnter | KulaWarp/Assets/Scripts/MonoBehaviour/PlayerController.cs:384-424 | Entering GravityChange installs the remapped orientation, leaves gravity on, points gravity against the new up, tells the camera, and is gradual exactly after rolling over an edge |
| Player.EnterSpec | KulaWarp/Assets/Scripts/MonoBehaviour/PlayerController.cs:243-247 | Entering a state makes it current |
| Player.ChangeStateSpec | KulaWarp/Assets/Scripts/MonoBehaviour/PlayerController.cs:199-215 | The player's state change ends in the target state |
| Player.ExitKeepsInv | KulaWarp/Assets/Scripts/MonoBehaviour/PlayerController.cs:249-252 | Leaving any state keeps the orientation and every timer, and keeps the warp's face/direction pair perpendicular |
| Player.ChangeStateKeepsInv | KulaWarp/Assets/Scripts/MonoBehaviour/PlayerController.cs:183-225 | Every state change keeps the controller invariant: orthonormal orientation, consistent warp and gravity-change fields, and non-negative timers |
| Player.CheckTransitionsKeepsInv | KulaWarp/Assets/Scripts/MonoBehaviour/PlayerController.cs:193-215 | Checking transitions keeps the invariant |
| Player.MovingUpdateKeepsInv | KulaWarp/Assets/Scripts/MonoBehaviour/PlayerController.cs:498-518 | A Moving tick keeps the invariant, including the continuation into a new move |
| Player.WarpingUpdateKeepsInv | KulaWarp/Assets/Scripts/MonoBehaviour/PlayerController.cs:317-332 | A Warping tick keeps the invariant |
| Player.GravityChangeUpdateKeepsInv | KulaWarp/Assets/Scripts/MonoBehaviour/PlayerController.cs:429-454 | A GravityChange tick keeps the invariant |
| Player.UpdateKeepsInv | KulaWarp/Assets/Scripts/MonoBehaviour/PlayerController.cs:79-82 | Every physics tick keeps the invariant |
| Player.ResetKeepsInv | KulaWarp/Assets/Scripts/MonoBehaviour/PlayerController.cs:84-96 | Reset ends in Idle with the invariant, even when it interrupts a warp |
| Player.MovingExits | KulaWarp/Assets/Scripts/MonoBehaviour/PlayerController.cs:508-511 | Moving reaches Idle only through the arrival flag; a move up or down that arrives goes to GravityChange with the flag cleared; a tick never lands in Idle |
| Player.Continuation | KulaWarp/Assets/Scripts/MonoBehaviour/PlayerController.cs:513-518 | A level move that arrives with forward held re-enters Moving without Idle, with the clock restarted, no ease-in and no events |
| Player.EaseInRestoredOnExit | KulaWarp/Assets/Scripts/MonoBehaviour/PlayerController.cs:493-496 | Leaving Moving restores the ease-in flag |
| Player.GravityAndWarpExits | KulaWarp/Assets/Scripts/MonoBehaviour/PlayerController.cs:431-439 | An instant gravity change returns to Moving after a move and to Falling after a warp; Warping leaves only to GravityChange; GravityChange never leaves through CheckTransitions |
| Player.GravityChangeEndsWithGravityOn | KulaWarp/Assets/Scripts/MonoBehaviour/PlayerController.cs:401-421 | Entering GravityChange always leaves the rigid body's gravity on, with Physics.gravity against the new up |
| Player.WarpWithoutFaceKeepsOrientation | KulaWarp/Assets/Scripts/MonoBehaviour/PlayerController.cs:304-308 | A warp with no face to land on re-enables gravity, and the following gravity change keeps up and direction |
| Player.FallingTimer | KulaWarp/Assets/Scripts/MonoBehaviour/PlayerController.cs:335-368 | The fall timer starts at zero and grows only while nothing lies below; Die is called on every tick past the threshold; the fall ends in Idle with the impact trigger once the ground probe hits |
| Player.PlayerController.constructor | KulaWarp/Assets/Scripts/MonoBehaviour/PlayerController.cs:45-72 | Awake starts in Idle at the start orientation and position, with the invariant |
| Player.PlayerController.ExitCurrent | KulaWarp/Assets/Scripts/MonoBehaviour/PlayerController.cs:288-315 | The fields follow the current state's OnExitState |
| Player.PlayerController.Enter | KulaWarp/Assets/Scripts/MonoBehaviour/PlayerController.cs:271-286 | The fields follow the target state's OnEnterState |
| Player.PlayerController.EnterGravityChange | KulaWarp/Assets/Scripts/MonoBehaviour/PlayerController.cs:384-425 | The fields follow GravityChange's OnEnterState: the remapped orientation, gravity pointing against the new up and left on, and the camera switched to its gravity change |
| Player.PlayerController.ChangeState | KulaWarp/Assets/Scripts/MonoBehaviour/PlayerController.cs:199-215 | The fields follow exit-then-enter, and the invariant is kept |
| Player.PlayerController.CheckTransitions | KulaWarp/Assets/Scripts/MonoBehaviour/PlayerController.cs:74-77 | The fields follow the wired transitions of the current state, and the invariant is kept |
| Player.PlayerController.WarpIfRequested | KulaWarp/Assets/Scripts/MonoBehaviour/PlayerController.cs:200-208 | The fields follow WarpIfAllowed |
| Player.PlayerController.Switch | KulaWarp/Assets/Scripts/StateMachine.cs:21-29 | The fields follow exit-then-enter |
| Player.PlayerController.CanWarp | KulaWarp/Assets/Scripts/MonoBehaviour/PlayerController.cs:134-170 | A warp is allowed exactly when the gate is open and no hit, ahead or above as the state and input choose, lies beyond one block |
| Player.PlayerController.FixedUpdate | KulaWarp/Assets/Scripts/MonoBehaviour/PlayerController.cs:79-82 | The fields follow the current state's UpdateState, and the invariant is kept |
| Player.PlayerController.UpdateMoving | KulaWarp/Assets/Scripts/MonoBehaviour/PlayerController.cs:498-506 | The fields follow Moving's update |
| Player.PlayerController.Advance | KulaWarp/Assets/Scripts/MonoBehaviour/PlayerController.cs:500-501 | The fields follow the ease step and a possible arrival up or down |
| Player.PlayerController.MoveForward | KulaWarp/Assets/Scripts/MonoBehaviour/PlayerController.cs:529-534 | The position is eased along the move and the arrival flag records whether it got there |
| Player.PlayerController.MoveUpDown | KulaWarp/Assets/Scripts/MonoBehaviour/PlayerController.cs:536-545 | An eased move up or down that arrives clears the arrival flag and changes to GravityChange |
| Player.PlayerController.Continue | KulaWarp/Assets/Scripts/MonoBehaviour/PlayerController.cs:513-518 | Moving is entered again from itself with the ease-in flag off |
| Player.PlayerController.UpdateWarping | KulaWarp/Assets/Scripts/MonoBehaviour/PlayerController.cs:317-333 | The fields follow Warping's update |
| Player.PlayerController.HoverStep | KulaWarp/Assets/Scripts/MonoBehaviour/PlayerController.cs:321-330 | The fields follow Hover |
| Player.PlayerController.UpdateFalling | KulaWarp/Assets/Scripts/MonoBehaviour/PlayerController.cs:357-367 | The fields follow Falling's update |
| Player.PlayerController.UpdateGravityChange | KulaWarp/Assets/Scripts/MonoBehaviour/PlayerController.cs:429-455 | The fields follow GravityChange's update |
| Player.PlayerController.Die | KulaWarp/Assets/Scripts/MonoBehaviour/PlayerController.cs:172-176 | Only the loss notification is added |
| Player.PlayerController.Enable | KulaWarp/Assets/Scripts/MonoBehaviour/PlayerController.cs:178-181 | Only the sphere's visibility changes |
| Player.PlayerController.Reset | KulaWarp/Assets/Scripts/MonoBehaviour/PlayerController.cs:84-96 | Reset ends in Idle and keeps the invariant |
| Camera.Clamp | KulaWarp/Assets/Scripts/MonoBehaviour/Controller/CameraController.cs:230-231 | The result lies within the bounds, equals the input inside them and the nearer bound outside them |
| Camera.CanRotate | KulaWarp/Assets/Scripts/MonoBehaviour/Controller/CameraController.cs:64-67 | A rotation is allowed only while the player is idle, so never while it moves, warps, falls or changes gravity |
| Camera.RotationEnd | KulaWarp/Assets/Scripts/MonoBehaviour/Controller/CameraController.cs:233-244 | A completed turn is perpendicular to up, and a quarter turn is also perpendicular to the old direction |
| Camera.Wiring | KulaWarp/Assets/Scripts/MonoBehaviour/Controller/CameraController.cs:97-124 | Every state has a transition and none leads back to itself; Rotate is reached exactly on the rotation input, Anim only on the reset request; Rotate and GravChange list their trigger-only return to Default first, and Rotate has no other |
| Camera.ReadAfterExit | KulaWarp/Assets/Scripts/MonoBehaviour/Controller/CameraController.cs:219-226 | After a completed rotation exits, the next state reads the player's direction turned by the rotation; after a rotation left before any update, it reads the camera's resting direction, which that exit has just written back; after any other exit it reads the player's orientation unchanged. Except after a rotation not yet updated, the orientation read is perpendicular |
| Camera.CheckTransitionsSpec | KulaWarp/Assets/Scripts/MonoBehaviour/Controller/CameraController.cs:105-106 | Rotate's only transition is trigger-only, so checking transitions in Rotate changes nothing |
| Camera.Advance | KulaWarp/Assets/Scripts/MonoBehaviour/Controller/CameraController.cs:230-231 | Progress stays within [0, 1] |
| Camera.UpdateSpec | KulaWarp/Assets/Scripts/MonoBehaviour/Controller/CameraController.cs:162-466 | Anim and Pause change nothing; Default, Warp and Falling keep state, orientation and events; only Rotate and GravChange leave their state, and then for Default |
| Camera.GravChangeFromDefault | KulaWarp/Assets/Scripts/MonoBehaviour/Controller/CameraController.cs:85-101 | From Default, GravChange is reached only on the gravity-change request |
| Camera.GravChangeFromWarp | KulaWarp/Assets/Scripts/MonoBehaviour/Controller/CameraController.cs:91-109 | From Warp, GravChange is reached only once the player has stopped warping |
| Camera.MoveTowardsApproaches | KulaWarp/Assets/Scripts/MonoBehaviour/Controller/CameraController.cs:131-148 | MoveTowards never overshoots, and closes the gap by the step or entirely |
| Camera.TargetAngle | KulaWarp/Assets/Scripts/MonoBehaviour/Controller/CameraController.cs:233-239 | The rotation is a quarter turn for directions -1 and 1 and a half turn otherwise |
| Camera.RotationEndIsTurn | KulaWarp/Assets/Scripts/MonoBehaviour/Controller/CameraController.cs:228-261 | A completed rotation keeps the direction perpendicular to up; a quarter turn is perpendicular to the old direction and a half turn reverses it; left then right, or back twice, is the identity |
| Camera.ExitSpec | KulaWarp/Assets/Scripts/MonoBehaviour/Controller/CameraController.cs:219-226 | Leaving Rotate resets it and hands the player the turned direction when the rotation is complete, or the camera's resting direction when no update has turned it; leaving GravChange clears its request, leaving Anim clears the intro flag; the rest is kept |
| Camera.EnterSpec | KulaWarp/Assets/Scripts/MonoBehaviour/Controller/CameraController.cs:378-386 | Entering a state makes it current; only Anim touches the reset flag and only Rotate the rotation direction |
| Camera.ChangeStateSpec | KulaWarp/Assets/Scripts/MonoBehaviour/Controller/CameraController.cs:169-226 | The state change ends in the target state; entering Default rests on the player's up and on the direction read after the exit, which is the turned direction when a completed rotation is left |
| Camera.ShortPass | KulaWarp/Assets/Scripts/MonoBehaviour/Controller/CameraController.cs:98-124 | A pass over a state's one or two transitions takes them in wiring order |
| Camera.DefaultPass | KulaWarp/Assets/Scripts/MonoBehaviour/Controller/CameraController.cs:98-103 | The pass over Default takes its six transitions in wiring order |
| Camera.TiltSpec | KulaWarp/Assets/Scripts/MonoBehaviour/Controller/CameraController.cs:131-148 | Tilt changes only the two offsets |
| Camera.ResetSpec | KulaWarp/Assets/Scripts/MonoBehaviour/Controller/CameraController.cs:55-60 | Reset ends in Anim with no reset request pending |
| Camera.ChangeStateKeepsInv | KulaWarp/Assets/Scripts/MonoBehaviour/Controller/CameraController.cs:196-226 | A state change keeps the camera invariant (progress in [0, 1], rotation fields at rest outside Rotate, a perpendicular orientation, no reset request), provided it does not re-enter Rotate from Rotate and does not leave a rotation not yet updated for a state that reads the player's orientation |
| Camera.CheckFromKeepsInv | KulaWarp/Assets/Scripts/MonoBehaviour/Controller/CameraController.cs:83-95 | A pass whose only Rotate transition comes first, and whose later transitions to Default, Warp or Falling need the player to warp or fall, keeps the invariant |
| Camera.CheckTransitionsKeepsInv | KulaWarp/Assets/Scripts/MonoBehaviour/Controller/CameraController.cs:69-129 | Checking the wired transitions keeps the invariant |
| Camera.UpdateKeepsInv | KulaWarp/Assets/Scripts/MonoBehaviour/Controller/CameraController.cs:328-355 | Every state's update keeps the invariant |
| Camera.NeverBackToAnim | KulaWarp/Assets/Scripts/MonoBehaviour/Controller/CameraController.cs:57 | Since nothing raises the reset request, the camera never re-enters Anim except through Reset |
| Camera.CheckNeverEntersAnim | KulaWarp/Assets/Scripts/MonoBehaviour/Controller/CameraController.cs:98-103 | Without the reset request, no pass reaches Anim |
| Camera.AnimExits | KulaWarp/Assets/Scripts/MonoBehaviour/Controller/CameraController.cs:388-391 | Anim is left only for Default, exactly when the intro has ended, and leaving it clears the flag |
| Camera.PauseRules | KulaWarp/Assets/Scripts/MonoBehaviour/Controller/CameraController.cs:397-431 | Pause is entered only from Default, Warp, GravChange or Falling while the game is not running, and is left only for Default once it is |
| Camera.GravChangeRules | KulaWarp/Assets/Scripts/MonoBehaviour/Controller/CameraController.cs:301-326 | GravChange is entered from Default only on request and from Warp only after the warp ends; leaving it clears the request |
| Camera.RotationLeftInItsPass | KulaWarp/Assets/Scripts/MonoBehaviour/Controller/CameraController.cs:98-102 | A rotation input with a gravity change pending enters Rotate and leaves it in the same pass, for GravChange (then Pause if the game is not in its default state); the player is handed the camera's resting direction, and GravChange targets it |
| Camera.RotateEnteredAtRest | KulaWarp/Assets/Scripts/MonoBehaviour/Controller/CameraController.cs:206-217 | Entering Rotate from Default leaves the camera's direction where it rested, with no progress and no update run yet |
| Camera.RotateLeftAtRest | KulaWarp/Assets/Scripts/MonoBehaviour/Controller/CameraController.cs:219-226 | A rotation left for GravChange before any update hands the player the rounding of the camera's resting direction, and GravChange targets the player's up with that direction |
| Camera.RotateEntry | KulaWarp/Assets/Scripts/MonoBehaviour/Controller/CameraController.cs:64-67 | A rotation starts only on rotation input while the player is idle, from progress 0, with the direction the horizontal input gives |
| Camera.ProgressAndCompletion | KulaWarp/Assets/Scripts/MonoBehaviour/Controller/CameraController.cs:228-261 | Rotation and gravity-change progress grow by dt times the speed, clamped to [0, 1], and return to Default exactly at 1; a finished rotation hands the turned direction to the player and comes to rest on the player's up, facing that turned direction; a finished gravity change rests on the player's orientation as read in the frame it finishes |
| Camera.CameraController.constructor | KulaWarp/Assets/Scripts/MonoBehaviour/Controller/CameraController.cs:31-47 | Awake starts in Anim with the inspector offsets and the start orientation |
| Camera.CameraController.ExitCurrent | KulaWarp/Assets/Scripts/MonoBehaviour/Controller/CameraController.cs:323-326 | The fields follow the current state's OnExitState |
| Camera.CameraController.Enter | KulaWarp/Assets/Scripts/MonoBehaviour/Controller/CameraController.cs:312-321 | The fields follow the target state's OnEnterState |
| Camera.CameraController.ChangeState | KulaWarp/Assets/Scripts/MonoBehaviour/Controller/CameraController.cs:110-124 | The fields follow exit-then-enter. The entered state reads the direction the exit wrote to the player: the turned direction after a completed rotation, the camera's resting direction after a rotation left before any update |
| Camera.CameraController.CheckTransitions | KulaWarp/Assets/Scripts/MonoBehaviour/Controller/CameraController.cs:83-97 | The fields follow the wired pass, and the invariant is kept |
| Camera.CameraController.Tilt | KulaWarp/Assets/Scripts/MonoBehaviour/Controller/CameraController.cs:131-148 | The offsets follow Tilt |
| Camera.CameraController.Update | KulaWarp/Assets/Scripts/MonoBehaviour/Controller/CameraController.cs:162-194 | The fields follow UpdateSpec: Anim and Pause idle, only Rotate and GravChange leave their state, for Default, and a finished rotation rests facing the turned direction; the invariant is kept |
| Camera.CameraController.UpdateRotate | KulaWarp/Assets/Scripts/MonoBehaviour/Controller/CameraController.cs:228-262 | The fields follow Rotate's update, which ends in Default facing the turned direction once progress reaches 1 |
| Camera.CameraController.UpdateGravChange | KulaWarp/Assets/Scripts/MonoBehaviour/Controller/CameraController.cs:328-356 | The fields follow GravChange's update |
| Camera.CameraController.LateUpdate | KulaWarp/Assets/Scripts/MonoBehaviour/Controller/CameraController.cs:49-53 | A frame is the transitions followed by the current state's update, and the invariant is kept; a rotation finishing in the frame leaves the camera facing the turned direction |
| Camera.CameraController.Reset | KulaWarp/Assets/Scripts/MonoBehaviour/Controller/CameraController.cs:55-60 | Reset ends in Anim, through OnExitState, with the invariant |
| Camera.CameraController.TriggerGravChange | KulaWarp/Assets/Scripts/MonoBehaviour/Controller/CameraController.cs:150-153 | Only the gravity-change request is raised |
| Camera.CameraController.EndIntro | KulaWarp/Assets/Scripts/MonoBehaviour/Controller/CameraController.cs:155-158 | Only the end-of-intro flag is raised |
| EnumCamera.Ordinal | KulaWarp/Assets/Scripts/MonoBehaviour/CameraController.cs:16 | The position in the declaration order is one of the ten |
| EnumCamera.OrdinalInjective | KulaWarp/Assets/Scripts/MonoBehaviour/CameraController.cs:16 | Distinct states have distinct positions, so the range tests are well defined |
| EnumCamera.CanTilt | KulaWarp/Assets/Scripts/MonoBehaviour/CameraController.cs:77-80 | Tilting is allowed exactly in Default, TiltUp and TiltDown while the player is not falling |
| EnumCamera.IsDefault | KulaWarp/Assets/Scripts/MonoBehaviour/CameraController.cs:110-113 | True exactly in Default, the one state in which LateUpdate follows the player |
| EnumCamera.CanRotate | KulaWarp/Assets/Scripts/MonoBehaviour/CameraController.cs:72-75 | A rotation may start only in Default while the player neither moves, warps nor falls, and then a tilt may start too |
| EnumCamera.RotateTarget | KulaWarp/Assets/Scripts/MonoBehaviour/CameraController.cs:130-131 | The target is perpendicular to both the player's up and its direction |
| EnumCamera.RotateSpec | KulaWarp/Assets/Scripts/MonoBehaviour/CameraController.cs:125-141 | Only RotLeft and RotRight act, and only on arrival: the camera returns to Default and appends the target, perpendicular to the player's up and direction, to the player's direction writes; up is never touched |
| EnumCamera.HandleInput | KulaWarp/Assets/Scripts/MonoBehaviour/CameraController.cs:96-108 | A rotation is chosen only when CanRotate holds, and a tilt only when CanTilt holds; LookUp wins over LookDown; the first matching input wins; otherwise the state is unchanged |
| EnumCamera.Dispatch | KulaWarp/Assets/Scripts/MonoBehaviour/CameraController.cs:43-64 | LateUpdate follows in Default, tilts in the tilt states, rotates in the five rotation states, does nothing in Anim and poses in Pause |
| EnumCamera.LateUpdateSpec | KulaWarp/Assets/Scripts/MonoBehaviour/CameraController.cs:43-64 | The pose applied is the dispatch of the state HandleInput chose |
| EnumCamera.RotationOutcome | KulaWarp/Assets/Scripts/MonoBehaviour/CameraController.cs:125-141 | A finished left or right rotation hands the player a direction a quarter turn from the old one, perpendicular to up, and returns to Default; RotUp, RotDown and RotBack do nothing |
| EnumCamera.TiltIsSticky | KulaWarp/Assets/Scripts/MonoBehaviour/CameraController.cs:143-144 | Once tilted, the camera stays in the tilt states for any number of frames, since Tilt is empty and only Resume returns to Default |
| EnumCamera.EnumCameraController.constructor | KulaWarp/Assets/Scripts/MonoBehaviour/CameraController.cs:16 | The camera starts in Default with no direction written |
| EnumCamera.EnumCameraController.Pause | KulaWarp/Assets/Scripts/MonoBehaviour/CameraController.cs:115-118 | Only the state changes, to Pause |
| EnumCamera.EnumCameraController.Resume | KulaWarp/Assets/Scripts/MonoBehaviour/CameraController.cs:120-123 | Only the state changes, to Default |
| EnumCamera.EnumCameraController.HandleInputs | KulaWarp/Assets/Scripts/MonoBehaviour/CameraController.cs:96-108 | The state becomes HandleInput's choice |
| EnumCamera.EnumCameraController.Rotate | KulaWarp/Assets/Scripts/MonoBehaviour/CameraController.cs:125-141 | The fields follow the rotation |
| EnumCamera.EnumCameraController.LateUpdate | KulaWarp/Assets/Scripts/MonoBehaviour/CameraController.cs:43-64 | State and pose follow LateUpdate |
| Session.ExitColourFor | KulaWarp/Assets/Scripts/MonoBehaviour/Controller/LevelController.cs:57-61 | The exit is green exactly when enough energy is collected, and red otherwise |
| Session.ScoreSpec | KulaWarp/Assets/Scripts/MonoBehaviour/Controller/LevelController.cs:107-128 | Points add the value, energy counts one whatever the value, and secrets and none change nothing |
| Session.ScoreAllCounts | KulaWarp/Assets/Scripts/MonoBehaviour/Elements/PickUpBase.cs:7 | Over a level, points are the sum of the point pickups' values and energy is the number of energy pickups |
| Session.Tick | KulaWarp/Assets/Scripts/MonoBehaviour/Controller/LevelController.cs:45-53 | A clock over the limit restarts from the frame time; otherwise it advances by it |
| Session.TickBounded | KulaWarp/Assets/Scripts/MonoBehaviour/Controller/LevelController.cs:47-50 | One frame keeps the clock within one frame of the limit |
| Session.TicksBounded | KulaWarp/Assets/Scripts/MonoBehaviour/Controller/LevelController.cs:45-53 | However many frames pass, the clock stays within one frame of the limit |
| Session.LevelController.constructor | KulaWarp/Assets/Scripts/MonoBehaviour/Controller/LevelController.cs:34-43 | A level starts with nothing collected or registered, no HUD call made and the exit as set in the editor, and Physics.gravity is set to -gravity times the start up axis |
| Session.LevelController.ActivateExit | KulaWarp/Assets/Scripts/MonoBehaviour/Controller/LevelController.cs:57-61 | The exit is coloured by the energy collected |
| Session.LevelController.CollectEnergy | KulaWarp/Assets/Scripts/MonoBehaviour/Controller/LevelController.cs:63-70 | One more unit of energy, the exit recoloured and the new energy shown on the HUD; nothing else changed |
| Session.LevelController.Score | KulaWarp/Assets/Scripts/MonoBehaviour/Controller/LevelController.cs:107-128 | Points and energy follow ScoreSpec; points are shown on the HUD score, energy recolours the exit and is shown on the HUD energy display; the other kinds make no HUD call |
| Session.LevelController.Register | KulaWarp/Assets/Scripts/MonoBehaviour/Controller/LevelController.cs:82-87 | The object is appended, duplicates included |
| Session.LevelController.OnExitEnter | KulaWarp/Assets/Scripts/MonoBehaviour/Controller/LevelController.cs:77-80 | The game is won exactly when enough energy is collected, and is untouched otherwise |
| Session.LevelController.Restart | KulaWarp/Assets/Scripts/MonoBehaviour/Controller/LevelController.cs:89-101 | Clock, energy and points go back to zero, Physics.gravity is set back to -gravity times the start up axis, every registered object is reset, and the game resumes |
| Session.LevelController.Update | KulaWarp/Assets/Scripts/MonoBehaviour/Controller/LevelController.cs:45-53 | The clock follows Tick and is shown on the HUD with the limit; a clock over the limit restarts the level first, which also resets Physics.gravity; otherwise gravity is not written |
| Session.Respond | KulaWarp/Assets/Scripts/MonoBehaviour/Controller/GameController.cs:78-102 | Each response happens exactly in its game state on its button; pausing also needs the camera at rest and the player idle |
| Session.NextState | KulaWarp/Assets/Scripts/MonoBehaviour/Controller/GameController.cs:78-102 | Resume and restart leave the game running, pause pauses it, advancing resumes at once only in the older copy, and every other response keeps the state |
| Session.PauseAndResume | KulaWarp/Assets/Scripts/MonoBehaviour/GameController.cs:63-87 | A paused game is left only through Pause, and then to Default; a running game pauses only on Pause with the camera at rest and the player idle |
| Session.TimeScaleFor | KulaWarp/Assets/Scripts/MonoBehaviour/Controller/GameController.cs:172-196 | Time runs exactly in Default |
| Session.NextScene | KulaWarp/Assets/Scripts/MonoBehaviour/Controller/GameController.cs:145-160 | The next scene is in range, and the last level goes back to the main menu |
| Session.SceneAfter | KulaWarp/Assets/Scripts/MonoBehaviour/Controller/GameController.cs:145-160 | Winning any number of levels in a row from a scene in range stays in range |
| Session.ScenesInOrder | KulaWarp/Assets/Scripts/MonoBehaviour/GameController.cs:125-140 | Winning every level from the menu visits the scenes in build order and returns to the menu |
| Session.SumAppend | KulaWarp/Assets/Scripts/MonoBehaviour/Controller/GameController.cs:14-20 | The sum of the per-level points grows by the points appended |
| Session.RecordLevel | KulaWarp/Assets/Scripts/MonoBehaviour/Controller/GameController.cs:147-151 | Finishing a level appends its points and keeps the earlier ones |
| Session.Penalise | KulaWarp/Assets/Scripts/MonoBehaviour/Controller/GameController.cs:138-140 | A loss keeps the per-level points and the level counter |
| Session.RecordLevelConsistent | KulaWarp/Assets/Scripts/MonoBehaviour/GameController.cs:125-140 | The total stays the sum of the per-level points minus the penalties, grown by the level's points |
| Session.PenaliseConsistent | KulaWarp/Assets/Scripts/MonoBehaviour/GameController.cs:107-123 | The total stays consistent with the penalty added, and can go negative |
| Session.ResumeSpec | KulaWarp/Assets/Scripts/MonoBehaviour/GameController.cs:160-168 | Resume runs the game at scale 1 with the player enabled and the pause screen hidden; the older copy also resumes the camera |
| Session.PauseSpec | KulaWarp/Assets/Scripts/MonoBehaviour/GameController.cs:142-150 | Pause stops time, disables the player and shows the pause screen; the older copy also pauses the camera |
| Session.StopSpec | KulaWarp/Assets/Scripts/MonoBehaviour/GameController.cs:50-61 | Game over stops time and disables the player; the older copy also pauses the camera |
| Session.WinSpec | KulaWarp/Assets/Scripts/MonoBehaviour/GameController.cs:180-191 | A win stops time in the Won state and keeps the save data |
| Session.LostSpec | KulaWarp/Assets/Scripts/MonoBehaviour/Controller/GameController.cs:127-143 | A loss stops time, applies the penalty, hides the pause screen and disables the player; the newer copy resets the player and the older pauses the camera |
| Session.NextLevelSpec | KulaWarp/Assets/Scripts/MonoBehaviour/Controller/GameController.cs:145-160 | The level is recorded and saved first and the next scene is loaded last; only the older copy resumes the game |
| Session.OperationsKeepInvariant | KulaWarp/Assets/Scripts/MonoBehaviour/Controller/GameController.cs:66-76 | Every operation keeps time running exactly in Default and the save data consistent |
| Session.GameController.constructor | KulaWarp/Assets/Scripts/MonoBehaviour/Controller/GameController.cs:40-57 | A game starts running, at scale 1, with empty save data |
| Session.GameController.IsPaused | KulaWarp/Assets/Scripts/MonoBehaviour/Controller/GameController.cs:104-107 | True exactly in Paused |
| Session.GameController.IsDefault | KulaWarp/Assets/Scripts/MonoBehaviour/Controller/GameController.cs:109-112 | True exactly in Default |
| Session.GameController.Resume | KulaWarp/Assets/Scripts/MonoBehaviour/Controller/GameController.cs:189-196 | The fields follow ResumeSpec, with the invariant |
| Session.GameController.Pause | KulaWarp/Assets/Scripts/MonoBehaviour/Controller/GameController.cs:172-179 | The fields follow PauseSpec, with the invariant |
| Session.GameController.Stop | KulaWarp/Assets/Scripts/MonoBehaviour/Controller/GameController.cs:66-76 | The fields follow StopSpec, with the invariant |
| Session.GameController.Win | KulaWarp/Assets/Scripts/MonoBehaviour/Controller/GameController.cs:208-218 | The fields follow WinSpec, with the invariant |
| Session.GameController.GameOver | KulaWarp/Assets/Scripts/MonoBehaviour/Controller/GameController.cs:66-76 | The fields follow StopSpec with GameOver, with the invariant |
| Session.GameController.Lost | KulaWarp/Assets/Scripts/MonoBehaviour/Controller/GameController.cs:127-143 | The fields follow LostSpec, and the penalty grows by the level's points |
| Session.GameController.NextLevel | KulaWarp/Assets/Scripts/MonoBehaviour/Controller/GameController.cs:145-160 | The fields follow NextLevelSpec, with the invariant |
| Session.GameController.Quit | KulaWarp/Assets/Scripts/MonoBehaviour/Controller/GameController.cs:181-187 | Quit resumes and then loads the main menu |
| Session.GameController.OnSceneLoaded | KulaWarp/Assets/Scripts/MonoBehaviour/Controller/GameController.cs:165-169 | A loaded scene resumes the game |
| Session.GameController.HandleInput | KulaWarp/Assets/Scripts/MonoBehaviour/Controller/GameController.cs:78-102 | The response Respond picks is carried out; only a restart touches the level; no response changes nothing |
| MenuCube.CsRem | KulaWarp/Assets/_Scripts/UI/MenuCube.cs:141-149 | C#'s remainder, which truncates toward zero and keeps the dividend's sign |
| MenuCube.NextSide | KulaWarp/Assets/_Scripts/UI/MenuCube.cs:141-142 | The side stays among the four, moving one step against the input, scaled by the inversion |
| MenuCube.NextEntry | KulaWarp/Assets/_Scripts/UI/MenuCube.cs:148-149 | The entry stays in range and wraps around at both ends |
| MenuCube.StepEntry | KulaWarp/Assets/Scripts/MonoBehaviour/MenuCube.cs:137-138 | One step of the entry is cyclic: the next entry, the previous one, or the same one |
| MenuCube.SideMoveThenBack | KulaWarp/Assets/Scripts/MonoBehaviour/MenuCube.cs:130-131 | A side step followed by the opposite step returns to the same side |
| MenuCube.EntryMoveThenBack | KulaWarp/Assets/Scripts/MonoBehaviour/MenuCube.cs:124-142 | An entry step followed by the opposite step returns to the same entry |
| MenuCube.InitialTexts | KulaWarp/Assets/_Scripts/UI/MenuCube.cs:114-124 | Whatever the default entry, the front shows the current entry, the side above entry 1 and the side below the last entry, and the inversion swaps the two; the other sides keep their texts |
| MenuCube.Turned | KulaWarp/Assets/_Scripts/UI/MenuCube.cs:131-153 | The turn starts in the given direction, side and entry step with wrap-around, only the new front side's text changes, and it shows the new entry |
| MenuCube.MenuCube.constructor | KulaWarp/Assets/_Scripts/UI/MenuCube.cs:31-57 | A cube starts on side 0 at the default entry, at rest, with the initial texts |
| MenuCube.MenuCube.InitTexts | KulaWarp/Assets/Scripts/MonoBehaviour/MenuCube.cs:107-117 | Only the texts change, to InitialTexts |
| MenuCube.MenuCube.ChangeSelectedEntry | KulaWarp/Assets/_Scripts/UI/MenuCube.cs:131-153 | Ignored while turning; otherwise the face turns as Turned says (side and entry step, the turn starts, the new front side shows the new entry), and the newer copy plays a sound |
| MenuCube.MenuCube.RotateCube | KulaWarp/Assets/_Scripts/UI/MenuCube.cs:90-112 | The turn advances by the frame's angle and snaps to rest on the current side once a quarter turn is covered |
| MenuCube.MenuCube.FixedUpdate | KulaWarp/Assets/_Scripts/UI/MenuCube.cs:59-63 | A cube at rest is unchanged; a turning cube adds the absolute turn step to its angle and, once 90 degrees are covered, comes to rest at its current side with angle 0, otherwise keeps turning; side, entry, texts, sounds and the inversion never change |
| MenuCube.MenuCube.GetCurMenuEntry | KulaWarp/Assets/_Scripts/UI/MenuCube.cs:163-166 | The current entry, which is the text on the front side |
| MenuCube.MenuCube.Confirm | KulaWarp/Assets/_Scripts/UI/MenuCube.cs:155-161 | The current entry is handed over; only the sound log changes |
| MainMenu.IsAnimPlaying | KulaWarp/Assets/_Scripts/Controller/MainMenuController.cs:90-98 | True exactly when any of the four animations plays |
| MainMenu.MenuAction | KulaWarp/Assets/_Scripts/Controller/MainMenuController.cs:52-64 | Submit first, then Cancel or Back, then up or down; at most one action |
| MainMenu.UpdateAction | KulaWarp/Assets/_Scripts/Controller/MainMenuController.cs:40-76 | Nothing while an animation plays; with a panel open, only the pending close or a close on Cancel or Back; otherwise the menu's action |
| MainMenu.LegacyUpdateAction | KulaWarp/Assets/Scripts/MonoBehaviour/Controller/MainMenuController.cs:36-56 | Without a panel, the menu's action; with a panel, only the pending close clears the flags |
| MainMenu.UpdateActionsAgree | KulaWarp/Assets/Scripts/MonoBehaviour/Controller/MainMenuController.cs:36-56 | With no animation playing, the two copies choose the same action |
| MainMenu.ChangeMenuSpec | KulaWarp/Assets/_Scripts/Controller/MainMenuController.cs:130-148 | With a sub-menu, the current cube is pushed and the sub-menu becomes current; otherwise nothing changes |
| MainMenu.GoBackSpec | KulaWarp/Assets/_Scripts/Controller/MainMenuController.cs:150-168 | The top of the stack is popped into the current cube; with an empty stack the game quits |
| MainMenu.OpenPanelSpec | KulaWarp/Assets/_Scripts/Controller/MainMenuController.cs:170-187 | The panel opens over the menu and the current cube is pushed |
| MainMenu.ClosePanelSpec | KulaWarp/Assets/_Scripts/Controller/MainMenuController.cs:189-211 | Ignored while animating; otherwise the panel closes, the close is left pending and the top cube becomes current |
| MainMenu.StartGameSpec | KulaWarp/Assets/_Scripts/Controller/MainMenuController.cs:100-113 | The fade starts and the start waits; nothing else changes |
| MainMenu.OpenPanelLegacySpec | KulaWarp/Assets/Scripts/MonoBehaviour/Controller/MainMenuController.cs:126-131 | Only the open flag and the panel's call |
| MainMenu.ClosePanelLegacySpec | KulaWarp/Assets/Scripts/MonoBehaviour/Controller/MainMenuController.cs:133-138 | Only the close flag and the panel's call |
| MainMenu.ChangeMenuThenGoBack | KulaWarp/Assets/Scripts/MonoBehaviour/Controller/MainMenuController.cs:86-124 | Entering a sub-menu and going back restores the controller |
| MainMenu.OpenPanelThenClose | KulaWarp/Assets/_Scripts/Controller/MainMenuController.cs:65-69 | Opening a panel, closing it and the next idle Update restore cube, stack and flags; only the two panel events remain |
| MainMenu.LegacyOpenPanelThenClose | KulaWarp/Assets/Scripts/MonoBehaviour/Controller/MainMenuController.cs:40-44 | In the older copy an open and a close never touch the stack, and the next Update clears both flags |
| MainMenu.AnimationBlocksUpdate | KulaWarp/Assets/_Scripts/Controller/MainMenuController.cs:45-50 | While an animation plays, Update changes nothing, and a pending start waits |
| MainMenu.MainMenuController.constructor | KulaWarp/Assets/_Scripts/Controller/MainMenuController.cs:31-38 | The menu starts on the start cube with an empty stack and no panel |
| MainMenu.MainMenuController.ChangeMenu | KulaWarp/Assets/_Scripts/Controller/MainMenuController.cs:130-148 | The fields follow ChangeMenuSpec for the current entry's sub-menu |
| MainMenu.MainMenuController.GoBack | KulaWarp/Assets/_Scripts/Controller/MainMenuController.cs:150-168 | The fields follow GoBackSpec; with a sub-menu open, the cube left behind turns back one entry silently if it was at rest, and is untouched otherwise |
| MainMenu.MainMenuController.Select | KulaWarp/Assets/_Scripts/Controller/MainMenuController.cs:60-63 | At rest the entry steps with wrap-around, the selection sound is added when audio is on, and the face turns as Turned says; while turning nothing changes |
| MainMenu.MainMenuController.ConfirmCurrent | KulaWarp/Assets/_Scripts/Controller/MainMenuController.cs:54-55 | The current entry is returned, the confirm sound is added when audio is on, and the face is unchanged |
| MainMenu.MainMenuController.OpenPanel | KulaWarp/Assets/_Scripts/Controller/MainMenuController.cs:170-187 | The fields follow OpenPanelSpec |
| MainMenu.MainMenuController.ClosePanel | KulaWarp/Assets/_Scripts/Controller/MainMenuController.cs:189-211 | The fields follow ClosePanelSpec |
| MainMenu.MainMenuController.StartGame | KulaWarp/Assets/_Scripts/Controller/MainMenuController.cs:100-113 | The fields follow StartGameSpec |
| MainMenu.MainMenuController.Update | KulaWarp/Assets/_Scripts/Controller/MainMenuController.cs:40-76 | The action UpdateAction picks is carried out on the controller and the current cube: a confirm adds its sound and keeps the face; a select at rest steps and turns the cube with its sound; Back at rest with a sub-menu open turns the cube left behind back one entry silently; a select or Back while turning, Back on the start cube and every other action leave the cube untouched |
| MainMenu.MainMenuController.UpdateLegacy | KulaWarp/Assets/Scripts/MonoBehaviour/Controller/MainMenuController.cs:36-56 | The action LegacyUpdateAction picks is carried out; the current cube turns, turns back or keeps its face in the same cases as in the newer copy, but never plays a sound |
| MainMenu.MainMenuController.OpenPanelLegacy | KulaWarp/Assets/Scripts/MonoBehaviour/Controller/MainMenuController.cs:126-131 | The fields follow OpenPanelLegacySpec |
| MainMenu.MainMenuController.ClosePanelLegacy | KulaWarp/Assets/Scripts/MonoBehaviour/Controller/MainMenuController.cs:133-138 | The fields follow ClosePanelLegacySpec |
| LevelGenerator.Neighbors | KulaWarp/Assets/LevelEditor/Editor/LevelGenerator.cs:99-104 | The six face neighbours of a block, all distinct |
| LevelGenerator.AdjacentSymmetric | KulaWarp/Assets/LevelEditor/Editor/LevelGenerator.cs:99-104 | Adjacency is symmetric |
| LevelGenerator.PresentKeepsPresent | KulaWarp/Assets/LevelEditor/Editor/LevelGenerator.cs:106-135 | The neighbours enqueued are exactly those still in the dictionary, without duplicates |
| LevelGenerator.TakeIfPresent | KulaWarp/Assets/LevelEditor/Editor/LevelGenerator.cs:106-110 | One neighbour leaves the dictionary and is enqueued exactly when it was there |
| LevelGenerator.TakeStep | KulaWarp/Assets/LevelEditor/Editor/LevelGenerator.cs:106-135 | After k neighbours, the queue holds the present ones among them and the dictionary has lost all of them |
| LevelGenerator.AddNeighbors | KulaWarp/Assets/LevelEditor/Editor/LevelGenerator.cs:97-136 | All six neighbours leave the dictionary, and those that were in it are enqueued in the fixed order |
| LevelGenerator.RemoveFirst | KulaWarp/Assets/LevelEditor/Editor/LevelGenerator.cs:42 | List.Remove drops one occurrence when there is one and keeps every other element |
| LevelGenerator.BfsStep | KulaWarp/Assets/LevelEditor/Editor/LevelGenerator.cs:38-46 | One dequeue keeps the search invariant: the component found so far is connected and closed, and the blocks are partitioned between components, queue and dictionary |
| LevelGenerator.StartComponent | KulaWarp/Assets/LevelEditor/Editor/LevelGenerator.cs:33-36 | Seeding a component with the first remaining block establishes the invariant |
| LevelGenerator.FinishComponent | KulaWarp/Assets/LevelEditor/Editor/LevelGenerator.cs:29-46 | An empty queue closes a connected component, and the rest of the blocks remain in the dictionary |
| LevelGenerator.MergeBlockGeometry | KulaWarp/Assets/LevelEditor/Editor/LevelGenerator.cs:10-46 | An error exactly when two blocks share a position; otherwise the result partitions the blocks into connected, maximal components; no blocks gives no components |
| MeshCombiner.SetCorner | KulaWarp/Assets/_Scripts/Common/MeshCombiner.cs:37 | Writing corner c of a triangle changes only that corner |
| MeshCombiner.ExtractTriangles | KulaWarp/Assets/_Scripts/Common/MeshCombiner.cs:33-37 | Triangle t holds indices 3t, 3t+1 and 3t+2 of the list |
| MeshCombiner.FlaggedCornersAreCorners | KulaWarp/Assets/_Scripts/Common/MeshCombiner.cs:42-51 | A vertex is collected exactly when it is a corner of a triangle flagged as inside |
| MeshCombiner.CollectFlagged | KulaWarp/Assets/_Scripts/Common/MeshCombiner.cs:42-51 | The loop collects the flagged corners in order |
| MeshCombiner.Dedup | KulaWarp/Assets/_Scripts/Common/MeshCombiner.cs:54 | Distinct keeps every value once |
| MeshCombiner.Filter | KulaWarp/Assets/_Scripts/Common/MeshCombiner.cs:55 | RemoveAll keeps exactly the indices not deleted |
| MeshCombiner.FilterTwice | KulaWarp/Assets/_Scripts/Common/MeshCombiner.cs:55 | Removing one value after another is removing both |
| MeshCombiner.RemoveDeletedIndices | KulaWarp/Assets/_Scripts/Common/MeshCombiner.cs:55 | The loop over the deleted values removes all of them from the index list |
| MeshCombiner.FilterNothing | KulaWarp/Assets/_Scripts/Common/MeshCombiner.cs:55 | Removing nothing keeps the list |
| MeshCombiner.InsertDescending | KulaWarp/Assets/_Scripts/Common/MeshCombiner.cs:56 | Inserting keeps the order strictly descending and adds exactly the value |
| MeshCombiner.SortDescending | KulaWarp/Assets/_Scripts/Common/MeshCombiner.cs:56 | OrderByDescending of distinct values is strictly descending with the same elements |
| MeshCombiner.Dropped | KulaWarp/Assets/_Scripts/Common/MeshCombiner.cs:56-61 | At most w positions below w are deleted |
| MeshCombiner.KeepPrefix | KulaWarp/Assets/_Scripts/Common/MeshCombiner.cs:56-61 | The kept prefix is as long as the undeleted positions |
| MeshCombiner.KeepPrefixAt | KulaWarp/Assets/_Scripts/Common/MeshCombiner.cs:64-66 | A kept element moves down by the number of deleted positions below it |
| MeshCombiner.DroppedMonotone | KulaWarp/Assets/_Scripts/Common/MeshCombiner.cs:64-66 | The count of deleted positions below grows with the position, but never faster |
| MeshCombiner.DroppedNone | KulaWarp/Assets/_Scripts/Common/MeshCombiner.cs:64-66 | With no deleted position below, nothing shifts |
| MeshCombiner.DroppedAdd | KulaWarp/Assets/_Scripts/Common/MeshCombiner.cs:64-66 | Deleting one more position shifts exactly the positions above it |
| MeshCombiner.KeepPrefixUntouched | KulaWarp/Assets/_Scripts/Common/MeshCombiner.cs:56-61 | Deletions above a prefix leave it untouched |
| MeshCombiner.KeepPrefixRemove | KulaWarp/Assets/_Scripts/Common/MeshCombiner.cs:56-61 | RemoveAt below all earlier removals is one more deleted position |
| MeshCombiner.RemoveAtKeep | KulaWarp/Assets/_Scripts/Common/MeshCombiner.cs:58-60 | RemoveAt at position i, below all earlier removals, equals keeping the list with i deleted |
| MeshCombiner.RemoveVertices | KulaWarp/Assets/_Scripts/Common/MeshCombiner.cs:56-61 | Vertices, normals and uvs keep exactly the undeleted positions, in order |
| MeshCombiner.Decrement | KulaWarp/Assets/_Scripts/Common/MeshCombiner.cs:66 | Every index above v goes down by one, and the rest are kept |
| MeshCombiner.Reindex | KulaWarp/Assets/_Scripts/Common/MeshCombiner.cs:64-66 | Every surviving index goes down by the number of deleted vertices below it |
| MeshCombiner.RenumberStep | KulaWarp/Assets/_Scripts/Common/MeshCombiner.cs:64-66 | One decrement step, taken in descending order, adds one deleted vertex to the renumbering |
| MeshCombiner.Translate | KulaWarp/Assets/_Scripts/Common/MeshCombiner.cs:71-72 | Every vertex is moved back by the offset |
| MeshCombiner.Sum | KulaWarp/Assets/_Scripts/Common/MeshCombiner.cs:71 | Copies of one position sum to their count times it |
| MeshCombiner.Average | KulaWarp/Assets/_Scripts/Common/MeshCombiner.cs:71 | The centre of copies of one position is that position |
| MeshCombiner.Triangles | KulaWarp/Assets/_Scripts/Common/MeshCombiner.cs:33-37 | Triangle t holds indices 3t, 3t+1 and 3t+2 |
| MeshCombiner.DeletedAreFlaggedCorners | KulaWarp/Assets/_Scripts/Common/MeshCombiner.cs:39-54 | A position is deleted exactly when it is a corner of a flagged triangle, so it names a vertex |
| MeshCombiner.RemoveInsideFaces | KulaWarp/Assets/_Scripts/Common/MeshCombiner.cs:27-81 | The mesh keeps exactly the undeleted vertices, normals and uvs, with vertices moved to the cubes' centre; no index names a deleted vertex, and every other index is renumbered to the same vertex, with its normal and uv |
| Particles.Instantiated | KulaWarp/Assets/Scripts/MonoBehaviour/ParticleSystemsController.cs:71-83 | The pool's first n instances are the prefab's instances 0 to n-1 |
| Particles.InsertKeepsDistinct | KulaWarp/Assets/Scripts/MonoBehaviour/ParticleSystemsController.cs:85-97 | Inserting a fresh instance keeps the ring free of duplicates |
| Particles.IndexOf | KulaWarp/Assets/Scripts/MonoBehaviour/ParticleSystemsController.cs:99-114 | IndexOf under prefab equality gives the first entry for the prefab, or -1 exactly when there is none |
| Particles.AddThenGet | KulaWarp/Assets/Scripts/MonoBehaviour/ParticleSystemsController.cs:38-58 | Adding a prefab already pooled keeps its index; adding a new one puts it last, where it is found |
| Particles.PooledPS.constructor | KulaWarp/Assets/Scripts/MonoBehaviour/ParticleSystemsController.cs:71-83 | A pool holds poolSize fresh instances and starts at index 0 |
| Particles.PooledPS.GetInstance | KulaWarp/Assets/Scripts/MonoBehaviour/ParticleSystemsController.cs:85-97 | A busy instance gets a fresh one inserted in its place and the ring grows; otherwise the instance whose turn it is is returned; the index advances around the ring |
| Particles.ParticleSystemsController.Prefabs | KulaWarp/Assets/Scripts/MonoBehaviour/ParticleSystemsController.cs:66 | The prefab of each pool entry, in order |
| Particles.ParticleSystemsController.constructor | KulaWarp/Assets/Scripts/MonoBehaviour/ParticleSystemsController.cs:12-21 | The pool starts empty |
| Particles.ParticleSystemsController.AddPrefabtoPool | KulaWarp/Assets/Scripts/MonoBehaviour/ParticleSystemsController.cs:38-47 | A prefab is appended only when not yet pooled, so no prefab is pooled twice; the index of its entry is returned |
| Particles.ParticleSystemsController.GetPrefabID | KulaWarp/Assets/Scripts/MonoBehaviour/ParticleSystemsController.cs:49-58 | The index of the prefab's entry, or -1 exactly when it is not pooled |

## Left out

- Unity's physics and rendering are not modelled.
  - Raycasts become the hit facts in `Probes`.
  - `Input` becomes the button and axis fields of the input records.
  - Animator state becomes the `fadeIn` and animation flags.
  - Animator triggers, `Physics.gravity` writes, sounds, HUD and `UIController` calls, and
    scene loads become events.
- Quaternion arithmetic, `Slerp`, `RotateTowards` and `AngleAxis` are floating-point
  interpolations. The cameras' and the player's orientations are modelled only at rest, as
  axes, and the rotation's end orientation is computed exactly.
- `transform.RotateAround` during a gradual turn over an edge, and the per-tick angle
  correction of that turn, are the input `rotatedPos`. The sphere's rolling rotation
  (`RotatePlayerSphere`) is not modelled.
- The cameras' positions, look-at points, `Follow` and the pause pose are not modelled. The
  older camera's pose is named by `Pose` only.
- `PlayerController.cs` line 423 writes the older camera's state enumeration from the newer
  player. It is modelled as the event `CameraGravChange`.
- The older camera reads the moving, warping and falling flags of an older player. They are
  inputs to `EnumCamInputs`.
- Utils.EasePosition: only the two endpoints are stated. The point in between is
  start + direction × progress / distance, where the distance is a square root supplied with
  its square.
- `MyInterps.Sinerp` and `Coserp` are not modelled: the core never calls them. The
  `myInterpolation.cs` copies of `Round`, `Floor`, `L1Norm`, `getComponent`, `setComponent`
  and `QuadEaseIn` have the same bodies as those in `Utils.cs`, and the same members model
  both.
- The mesh geometry of `mergeBlockGeometry` after the component search is not modelled. This
  covers `CombineMeshes`, materials and the new game objects. Positions are integer triples.
- The inside-face test of `removeInsideFaces` (midpoint plus half a normal, rounded, looked up
  among the cubes) is the input `inside`.
- `ParticleSystemsController.PlayPS` positions and plays a particle system, and is not
  modelled. `AddPrefabtoPool` and `GetPrefabID` each instantiate a throw-away pool; those
  instances are not modelled.
- `MenuEntry` callbacks are not invoked: a confirmed entry is recorded as `Confirmed(entry)`.
- Camera.ReadAfterExit: promises a direction perpendicular to the player's up only when the
  state left is not a rotation that no update has turned. Rotate's exit then writes back the
  camera's resting direction, which the camera keeps while the player changes gravity, and
  GravChange takes that pair as its target. The invariant therefore says nothing about
  GravChange's target orientation.
- The menu animations are not recorded: `MainMenuController`'s selector hover animation,
  `m_trans.Shrink`, `FlyIn`, `FlyOut` and `Unshrink`, the selector's `PlayD` and `PlayA`, and
  the selector bodies' `useGravity` writes (`_Scripts/Controller/MainMenuController.cs`
  136-140, 154-159, 178-186 and 200-208), and the hover animation of the older
  `MenuCube.Confirm`. Only whether an animation is playing is an input.
- MenuCube.MenuCube.constructor: requires at least two entries, since InitTexts reads the
  entry at index 1 and throws for a one-entry cube; the exception path is not modelled.
- MenuCube.MenuCube.InitTexts: requires at least two entries, for the same reason.
- Particles.PooledPS.GetInstance: requires a pool of at least one instance. `AddPrefabtoPool`
  accepts size 0, and `getInstance` then indexes an empty list and throws; the exception path
  is not modelled.
- MainMenu.MainMenuController.Update: a panel close requires a current panel and a non-empty
  stack. `ClosePanel` dereferences a null `m_curPanel` and `Stack.Pop` throws on an empty
  stack; the exception path is not modelled.
- MainMenu.MainMenuController.ClosePanel: requires a non-empty stack, since `Stack.Pop` throws
  on an empty one and the exception path is not modelled.
- The menu cube's float rotation becomes `CubePose` (turning or at rest on a side). The angle
  covered is still tracked.
- `SaveGame` and `LoadGame` serialise with `BinaryFormatter` to a file. A save is recorded as
  `Saved(data)`, and loading is not modelled.
- `ObjectBase.Reset` on registered objects is recorded by object id.
- Session.LevelController.Score: points are unbounded integers, and the 32-bit wrap-around of
  the C# `int` is not modelled.
- Singletons, `Awake` component lookups, `DontDestroyOnLoad` and `SceneManager` callbacks
  are glue and are not modelled.
