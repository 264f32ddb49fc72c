/** The session bookkeeping of a level and of the whole game: the LevelController of
    Scripts/MonoBehaviour/Controller/LevelController.cs (points, energy, the exit and the
    time limit) and the GameController of Scripts/MonoBehaviour/Controller/GameController.cs
    with its older copy Scripts/MonoBehaviour/GameController.cs (the game state, the time
    scale and the save data).

    The two controllers call each other (a restart resumes the game, entering a charged exit
    wins it, confirming a loss restarts the level), so they share a module. Buttons, the
    camera's and the player's state and the scene indices arrive as parameters; what the
    controllers ask of the player, the camera, the HUD, the file system and the scene
    manager is recorded as events. */
module Session {
  import U = Utils

  // ---------------------------------------------------------------- the level

  /** Currency of PickUpBase.cs: how a pickup's value is accumulated. */
  datatype Currency = None | Points | Energy | Secret

  /** The exit's colour: as set in the editor until ActivateExit first runs. */
  datatype ExitColour = Unset | Red | Green

  type ObjectId = nat

  /** The LevelController's calls on the HUD (UIController). */
  datatype HudCall =
    | DisplayTime(time: real, limit: real) // UIController.DisplayTime
    | ColorEnergy(energy: int)             // UIController.ColorEnergy
    | ShowScore(points: int)               // UIController.Score

  /** ActivateExit: green once enough energy is collected, red before. */
  function ExitColourFor(curEnergy: int, targetEnergyCount: int): (c: ExitColour)
    ensures c != Unset
    ensures c == Green <==> curEnergy >= targetEnergyCount
  {
    if curEnergy >= targetEnergyCount then Green else Red
  }

  /** Score's effect on (points, energy): Points add the value, Energy counts one whatever
      the value, Secret and None change nothing. */
  function ScoreSpec(points: int, energy: int, value: int, currency: Currency): (r: (int, int))
    ensures currency == Points ==> r == (points + value, energy)
    ensures currency == Energy ==> r == (points, energy + 1)
    ensures currency in {None, Secret} ==> r == (points, energy)
  {
    match currency
    case Points => (points + value, energy)
    case Energy => (points, energy + 1)
    case _ => (points, energy)
  }

  /** The pickups scored one after the other. */
  function ScoreAll(points: int, energy: int, pickups: seq<(int, Currency)>): (int, int)
    decreases |pickups|
  {
    if |pickups| == 0 then (points, energy)
    else
      var (p, e) := ScoreSpec(points, energy, pickups[0].0, pickups[0].1);
      ScoreAll(p, e, pickups[1..])
  }

  /** How many of the pickups are Energy. */
  function EnergyCount(pickups: seq<(int, Currency)>): nat
  {
    if |pickups| == 0 then 0 else (if pickups[0].1 == Energy then 1 else 0) + EnergyCount(pickups[1..])
  }

  /** The values of the Points pickups, added up. */
  function PointsValue(pickups: seq<(int, Currency)>): int
  {
    if |pickups| == 0 then 0 else (if pickups[0].1 == Points then pickups[0].0 else 0) + PointsValue(pickups[1..])
  }

  /** Over a level, the energy counts the Energy pickups, whatever their values, and the
      points add up the values of the Points pickups only. */
  lemma {:induction false} ScoreAllCounts(points: int, energy: int, pickups: seq<(int, Currency)>)
    ensures ScoreAll(points, energy, pickups) == (points + PointsValue(pickups), energy + EnergyCount(pickups))
    decreases |pickups|
  {
    if |pickups| > 0 {
      var (p, e) := ScoreSpec(points, energy, pickups[0].0, pickups[0].1);
      ScoreAllCounts(p, e, pickups[1..]);
    }
  }

  /** One frame of Update's clock: a time over the limit restarts the level first, then the
      frame's time is added. */
  function Tick(curTime: real, timeLimit: real, dt: real): (t: real)
    ensures curTime > timeLimit ==> t == dt
    ensures curTime <= timeLimit ==> t == curTime + dt
  {
    (if curTime > timeLimit then 0.0 else curTime) + dt
  }

  /** The clock never runs more than one frame past the limit: a restart comes on the first
      frame that finds it over. */
  lemma TickBounded(curTime: real, timeLimit: real, dt: real, maxDt: real)
    requires 0.0 <= dt <= maxDt && curTime <= timeLimit + maxDt && timeLimit >= 0.0
    ensures Tick(curTime, timeLimit, dt) <= timeLimit + maxDt
  {
  }

  /** Successive frames of the clock. */
  function Ticks(curTime: real, timeLimit: real, dts: seq<real>): real
    decreases |dts|
  {
    if |dts| == 0 then curTime else Ticks(Tick(curTime, timeLimit, dts[0]), timeLimit, dts[1..])
  }

  /** However many frames pass, the clock stays within a frame of the limit. */
  lemma {:induction false} TicksBounded(curTime: real, timeLimit: real, dts: seq<real>, maxDt: real)
    requires forall k :: 0 <= k < |dts| ==> 0.0 <= dts[k] <= maxDt
    requires curTime <= timeLimit + maxDt && timeLimit >= 0.0
    ensures Ticks(curTime, timeLimit, dts) <= timeLimit + maxDt
    decreases |dts|
  {
    if |dts| > 0 {
      TickBounded(curTime, timeLimit, dts[0], maxDt);
      TicksBounded(Tick(curTime, timeLimit, dts[0]), timeLimit, dts[1..], maxDt);
    }
  }

  class LevelController {
    const gc: GameController
    const timeLimit: real
    const targetEnergyCount: int
    const gravity: real
    const startUp: U.Vec3

    var points: int
    var curEnergy: int
    var curTime: real
    var objList: seq<ObjectId>
    var resets: seq<ObjectId>     // the Reset calls made on registered objects, in order
    var exit: ExitColour
    var gravityWrites: seq<U.Vec3> // the values written to Physics.gravity, in order
    var hud: seq<HudCall>          // the calls made on the HUD, in order

    /** The exit, once coloured, shows whether enough energy is collected. */
    predicate Valid()
      reads this
    {
      exit != Unset ==> exit == ExitColourFor(curEnergy, targetEnergyCount)
    }

    /** Awake: nothing collected, nothing registered, the exit as in the editor, and gravity
        pointing against the start orientation's up. */
    constructor(game: GameController, limit: real, target: int, g: real, up: U.Vec3)
      ensures Valid() && gc == game && timeLimit == limit && targetEnergyCount == target
      ensures gravity == g && startUp == up
      ensures points == 0 && curEnergy == 0 && curTime == 0.0 && objList == [] && resets == [] && exit == Unset
      ensures gravityWrites == [U.Scale(-g, up)] && hud == []
    {
      gc := game;
      timeLimit := limit;
      targetEnergyCount := target;
      gravity := g;
      startUp := up;
      points, curEnergy, curTime := 0, 0, 0.0;
      objList, resets := [], [];
      exit := Unset;
      gravityWrites := [U.Scale(-g, up)];
      hud := [];
    }

    method ActivateExit()
      modifies this`exit
      ensures exit == ExitColourFor(curEnergy, targetEnergyCount) && Valid()
    {
      if curEnergy >= targetEnergyCount {
        exit := Green;
      } else {
        exit := Red;
      }
    }

    /** CollectEnergy: one more unit of energy, shown on the HUD, and the exit recoloured. */
    method CollectEnergy()
      requires Valid()
      modifies this
      ensures Valid() && curEnergy == old(curEnergy) + 1 && exit == ExitColourFor(curEnergy, targetEnergyCount)
      ensures points == old(points) && curTime == old(curTime) && objList == old(objList) && resets == old(resets)
      ensures gravityWrites == old(gravityWrites)
      ensures hud == old(hud) + [ColorEnergy(curEnergy)]
    {
      curEnergy := curEnergy + 1;
      hud := hud + [ColorEnergy(curEnergy)];
      ActivateExit();
    }

    /** Score: Points add the value and show the new score, Energy counts one, shows it and
        recolours the exit, the rest changes nothing. */
    method Score(value: int, currency: Currency)
      requires Valid()
      modifies this
      ensures Valid() && (points, curEnergy) == ScoreSpec(old(points), old(curEnergy), value, currency)
      ensures currency == Energy ==> exit == ExitColourFor(curEnergy, targetEnergyCount)
      ensures currency != Energy ==> exit == old(exit)
      ensures curTime == old(curTime) && objList == old(objList) && resets == old(resets)
      ensures gravityWrites == old(gravityWrites)
      ensures currency == Points ==> hud == old(hud) + [ShowScore(points)]
      ensures currency == Energy ==> hud == old(hud) + [ColorEnergy(curEnergy)]
      ensures currency in {None, Secret} ==> hud == old(hud)
    {
      match currency {
        case Points =>
          points := points + value;
          hud := hud + [ShowScore(points)];
        case Energy =>
          curEnergy := curEnergy + 1;
          hud := hud + [ColorEnergy(curEnergy)];
          ActivateExit();
        case _ =>
      }
    }

    /** Register: appended, duplicates included. */
    method Register(o: ObjectId)
      modifies this
      ensures objList == old(objList) + [o]
      ensures points == old(points) && curEnergy == old(curEnergy) && curTime == old(curTime)
      ensures resets == old(resets) && exit == old(exit) && gravityWrites == old(gravityWrites)
      ensures hud == old(hud)
    {
      objList := objList + [o];
    }

    /** OnExitEnter: the game is won exactly when enough energy is collected. */
    method OnExitEnter()
      requires gc.Valid()
      modifies gc
      ensures gc.Valid()
      ensures curEnergy >= targetEnergyCount ==> gc.Snapshot() == WinSpec(old(gc.Snapshot()), gc.older)
      ensures curEnergy < targetEnergyCount ==> unchanged(gc)
    {
      if curEnergy >= targetEnergyCount {
        gc.Win();
      }
    }

    /** Restart: the clock, the energy and the points back to zero, gravity pointing against
        the start orientation's up again, the exit recoloured, every registered object reset
        in registration order, and the game resumed. */
    method Restart()
      requires Valid() && gc.Valid()
      modifies this, gc
      ensures Valid() && gc.Valid()
      ensures curTime == 0.0 && curEnergy == 0 && points == 0
      ensures exit == ExitColourFor(0, targetEnergyCount)
      ensures objList == old(objList) && resets == old(resets) + objList
      ensures gravityWrites == old(gravityWrites) + [U.Scale(-gravity, startUp)]
      ensures hud == old(hud)
      ensures gc.Snapshot() == ResumeSpec(old(gc.Snapshot()), gc.older)
    {
      curTime, curEnergy, points := 0.0, 0, 0;
      gravityWrites := gravityWrites + [U.Scale(-gravity, startUp)];
      ActivateExit();
      for i := 0 to |objList|
        invariant objList == old(objList) && resets == old(resets) + objList[..i]
        invariant gravityWrites == old(gravityWrites) + [U.Scale(-gravity, startUp)]
        invariant hud == old(hud)
        invariant unchanged(gc)
        invariant curTime == 0.0 && curEnergy == 0 && points == 0 && Valid()
        invariant exit == ExitColourFor(0, targetEnergyCount)
      {
        resets := resets + [objList[i]];
      }
      gc.Resume();
    }

    /** Update: a clock over the limit restarts the level before the frame's time is
        added, and the HUD shows the new time against the limit. */
    method Update(dt: real)
      requires Valid() && gc.Valid()
      modifies this, gc
      ensures Valid() && gc.Valid()
      ensures curTime == Tick(old(curTime), timeLimit, dt)
      ensures hud == old(hud) + [DisplayTime(curTime, timeLimit)]
      ensures objList == old(objList)
      ensures old(curTime) > timeLimit ==>
        && curEnergy == 0 && points == 0 && resets == old(resets) + objList
        && gravityWrites == old(gravityWrites) + [U.Scale(-gravity, startUp)]
        && gc.Snapshot() == ResumeSpec(old(gc.Snapshot()), gc.older)
      ensures old(curTime) <= timeLimit ==>
        && curEnergy == old(curEnergy) && points == old(points) && resets == old(resets) && exit == old(exit)
        && gravityWrites == old(gravityWrites)
        && unchanged(gc)
    {
      if curTime > timeLimit {
        Restart();
      }
      curTime := curTime + dt;
      hud := hud + [DisplayTime(curTime, timeLimit)];
    }
  }

  // ---------------------------------------------------------------- the game

  datatype GameState = Default | Paused | GameOver | Won | Lost

  /** SaveData: what is written to the save file. */
  datatype SaveData = SaveData(totalPoints: int, curLevel: int, pointsPerLevel: seq<int>)

  datatype GameEvent =
    | EnablePlayer(on: bool)       // PlayerController.Enable
    | PauseCamera                  // CameraController.Pause (older copy)
    | ResumeCamera                 // CameraController.Resume (older copy)
    | PauseScreen(shown: bool)     // UIController.PauseScreen
    | ResetPlayer                  // the player's state machine Reset (newer Lost)
    | Saved(data: SaveData)        // SaveGame
    | LoadScene(index: int)        // SceneManager.LoadScene

  /** The buttons HandleInput polls. */
  datatype GameInput = GameInput(pause: bool, submit: bool)

  /** What HandleInput does, by game state. */
  datatype Response = NoResponse | ResumeGame | LoadMainMenu | AdvanceLevel | RestartLevel | PauseGame

  /** HandleInput's switch: Pause resumes a paused game; Submit goes to the main menu after
      a game over, to the next level after a win, and restarts after a loss; Pause pauses
      a running game only when the camera is at rest and the player idle. */
  function Respond(s: GameState, inp: GameInput, cameraDefault: bool, playerIdle: bool): (r: Response)
    ensures r == ResumeGame <==> s == Paused && inp.pause
    ensures r == LoadMainMenu <==> s == GameOver && inp.submit
    ensures r == AdvanceLevel <==> s == Won && inp.submit
    ensures r == RestartLevel <==> s == Lost && inp.submit
    ensures r == PauseGame <==> s == Default && inp.pause && cameraDefault && playerIdle
  {
    match s
    case Paused => if inp.pause then ResumeGame else NoResponse
    case GameOver => if inp.submit then LoadMainMenu else NoResponse
    case Won => if inp.submit then AdvanceLevel else NoResponse
    case Lost => if inp.submit then RestartLevel else NoResponse
    case Default => if inp.pause && cameraDefault && playerIdle then PauseGame else NoResponse
  }

  /** The game state right after HandleInput's response (a scene being loaded resumes the
      newer copy only once it has loaded). */
  function NextState(s: GameState, r: Response, older: bool): (t: GameState)
    ensures r in {ResumeGame, RestartLevel} ==> t == Default
    ensures r == PauseGame ==> t == Paused
    ensures r == AdvanceLevel ==> t == (if older then Default else s)
    ensures r !in {ResumeGame, RestartLevel, PauseGame, AdvanceLevel} ==> t == s
  {
    match r
    case ResumeGame => Default
    case RestartLevel => Default
    case PauseGame => Paused
    case AdvanceLevel => if older then Default else s
    case _ => s
  }

  /** A paused game is left only through the Pause button, and then to Default; a running
      game pauses only on the Pause button, and the next Pause press resumes it. */
  lemma PauseAndResume(inp: GameInput, cameraDefault: bool, playerIdle: bool, older: bool)
    ensures NextState(Paused, Respond(Paused, inp, cameraDefault, playerIdle), older) != Paused <==> inp.pause
    ensures inp.pause ==> NextState(Paused, Respond(Paused, inp, cameraDefault, playerIdle), older) == Default
    ensures NextState(Default, Respond(Default, inp, cameraDefault, playerIdle), older) == Paused
      <==> inp.pause && cameraDefault && playerIdle
    ensures var p := NextState(Default, Respond(Default, inp, cameraDefault, playerIdle), older);
      p == Paused ==> NextState(p, Respond(p, inp, cameraDefault, playerIdle), older) == Default
  {
  }

  /** Time runs (scale 1) in Default and stands still (scale 0) in every other state. */
  function TimeScaleFor(s: GameState): (t: real)
    ensures t == 1.0 <==> s == Default
    ensures t == 0.0 <==> s != Default
  {
    if s == Default then 1.0 else 0.0
  }

  /** The scene after the current one, or the main menu (scene 0) after the last. */
  function NextScene(buildIndex: int, sceneCount: int): (r: int)
    ensures 0 <= buildIndex < sceneCount ==> 0 <= r < sceneCount
    ensures buildIndex == sceneCount - 1 ==> r == 0
  {
    if buildIndex < sceneCount - 1 then buildIndex + 1 else 0
  }

  /** The scene reached from start after winning k levels in a row; it never leaves the
      build's scene range. */
  function SceneAfter(start: int, k: nat, sceneCount: int): (r: int)
    ensures 0 <= start < sceneCount ==> 0 <= r < sceneCount
    ensures k == 0 ==> r == start
  {
    if k == 0 then start else NextScene(SceneAfter(start, k - 1, sceneCount), sceneCount)
  }

  /** Winning every level from the main menu visits the scenes in build order and comes
      back to the main menu after the last one. */
  lemma {:induction false} ScenesInOrder(k: nat, sceneCount: int)
    requires 0 < sceneCount && k <= sceneCount
    ensures SceneAfter(0, k, sceneCount) == if k == sceneCount then 0 else k
  {
    if k > 0 {
      ScenesInOrder(k - 1, sceneCount);
    }
  }

  function Sum(s: seq<int>): int
  {
    if |s| == 0 then 0 else s[0] + Sum(s[1..])
  }

  lemma {:induction false} SumAppend(s: seq<int>, x: int)
    ensures Sum(s + [x]) == Sum(s) + x
  {
    if |s| > 0 {
      assert (s + [x])[1..] == s[1..] + [x];
      SumAppend(s[1..], x);
    }
  }

  /** The save data is consistent with the levels finished and the penalties paid: one
      entry per level, and the total is their sum less the penalties. */
  predicate SaveConsistent(d: SaveData, penalties: int)
  {
    d.curLevel == |d.pointsPerLevel| && d.totalPoints == Sum(d.pointsPerLevel) - penalties
  }

  /** NextLevel's bookkeeping: the level's points recorded and added, the level counted. */
  function RecordLevel(d: SaveData, levelPoints: int): (r: SaveData)
    ensures |r.pointsPerLevel| == |d.pointsPerLevel| + 1 && r.pointsPerLevel[..|d.pointsPerLevel|] == d.pointsPerLevel
  {
    SaveData(d.totalPoints + levelPoints, d.curLevel + 1, d.pointsPerLevel + [levelPoints])
  }

  /** Lost's penalty: the level's points taken off the total, which may go negative. */
  function Penalise(d: SaveData, levelPoints: int): (r: SaveData)
    ensures r.pointsPerLevel == d.pointsPerLevel && r.curLevel == d.curLevel
  {
    d.(totalPoints := d.totalPoints - levelPoints)
  }

  lemma RecordLevelConsistent(d: SaveData, penalties: int, levelPoints: int)
    requires SaveConsistent(d, penalties)
    ensures SaveConsistent(RecordLevel(d, levelPoints), penalties)
    ensures RecordLevel(d, levelPoints).totalPoints == d.totalPoints + levelPoints
  {
    SumAppend(d.pointsPerLevel, levelPoints);
  }

  lemma PenaliseConsistent(d: SaveData, penalties: int, levelPoints: int)
    requires SaveConsistent(d, penalties)
    ensures SaveConsistent(Penalise(d, levelPoints), penalties + levelPoints)
    ensures levelPoints > d.totalPoints ==> Penalise(d, levelPoints).totalPoints < 0
  {
  }

  /** The game controller's state as a value. */
  datatype Game = Game(gameState: GameState, timeScale: real, save: SaveData, events: seq<GameEvent>)

  /** Resume: running, time at scale 1, the player enabled and the pause screen hidden; the
      older copy resumes its camera first. */
  function ResumeSpec(g: Game, older: bool): (r: Game)
    ensures r.gameState == Default && r.timeScale == 1.0 && r.save == g.save
    ensures r.events == g.events + (if older then [ResumeCamera] else []) + [EnablePlayer(true), PauseScreen(false)]
  {
    Game(Default, 1.0, g.save,
         g.events + (if older then [ResumeCamera] else []) + [EnablePlayer(true), PauseScreen(false)])
  }

  /** Pause: paused, time stopped, the player disabled and the pause screen shown; the older
      copy pauses its camera too. */
  function PauseSpec(g: Game, older: bool): (r: Game)
    ensures r.gameState == Paused && r.timeScale == 0.0 && r.save == g.save
    ensures r.events == g.events + [EnablePlayer(false)] + (if older then [PauseCamera] else []) + [PauseScreen(true)]
  {
    Game(Paused, 0.0, g.save,
         g.events + [EnablePlayer(false)] + (if older then [PauseCamera] else []) + [PauseScreen(true)])
  }

  /** Win and GameOver: time stopped, the player disabled (and the older camera paused),
      then the state set. */
  function StopSpec(g: Game, s: GameState, older: bool): (r: Game)
    ensures r.gameState == s && r.timeScale == 0.0 && r.save == g.save
    ensures r.events == g.events + [EnablePlayer(false)] + (if older then [PauseCamera] else [])
  {
    Game(s, 0.0, g.save, g.events + [EnablePlayer(false)] + (if older then [PauseCamera] else []))
  }

  function WinSpec(g: Game, older: bool): (r: Game)
    ensures r.gameState == Won && r.timeScale == 0.0 && r.save == g.save
  {
    StopSpec(g, Won, older)
  }

  /** Lost: time stopped, the pause screen hidden, the player disabled, then in the newer
      copy its state machine reset and in the older its camera paused; the level's points
      are taken off the total. */
  function LostSpec(g: Game, levelPoints: int, older: bool): (r: Game)
    ensures r.gameState == Lost && r.timeScale == 0.0 && r.save == Penalise(g.save, levelPoints)
    ensures r.events == g.events + [PauseScreen(false), EnablePlayer(false)] + (if older then [PauseCamera] else [ResetPlayer])
  {
    Game(Lost, 0.0, Penalise(g.save, levelPoints),
         g.events + [PauseScreen(false), EnablePlayer(false)] + (if older then [PauseCamera] else [ResetPlayer]))
  }

  /** NextLevel: the level recorded and saved, then (older copy) the game resumed, then the
      next scene loaded. */
  function NextLevelSpec(g: Game, levelPoints: int, buildIndex: int, sceneCount: int, older: bool): (r: Game)
    ensures r.save == RecordLevel(g.save, levelPoints)
    ensures |r.events| >= |g.events| + 2 && r.events[..|g.events| + 1] == g.events + [Saved(r.save)]
    ensures r.events[|r.events| - 1] == LoadScene(NextScene(buildIndex, sceneCount))
    ensures older ==> r.gameState == Default && r.timeScale == 1.0
    ensures !older ==> r.gameState == g.gameState && r.timeScale == g.timeScale
  {
    var saved := g.(save := RecordLevel(g.save, levelPoints), events := g.events + [Saved(RecordLevel(g.save, levelPoints))]);
    var resumed := if older then ResumeSpec(saved, older) else saved;
    resumed.(events := resumed.events + [LoadScene(NextScene(buildIndex, sceneCount))])
  }

  /** Every state-setting operation keeps time running exactly in Default, and keeps the
      save data consistent with the penalties paid. */
  lemma OperationsKeepInvariant(g: Game, penalties: int, levelPoints: int, buildIndex: int, sceneCount: int, older: bool)
    requires g.timeScale == TimeScaleFor(g.gameState) && SaveConsistent(g.save, penalties)
    ensures var r := ResumeSpec(g, older); r.timeScale == TimeScaleFor(r.gameState) && SaveConsistent(r.save, penalties)
    ensures var r := PauseSpec(g, older); r.timeScale == TimeScaleFor(r.gameState) && SaveConsistent(r.save, penalties)
    ensures var r := WinSpec(g, older); r.timeScale == TimeScaleFor(r.gameState) && SaveConsistent(r.save, penalties)
    ensures var r := StopSpec(g, GameOver, older); r.timeScale == TimeScaleFor(r.gameState) && SaveConsistent(r.save, penalties)
    ensures var r := LostSpec(g, levelPoints, older);
      r.timeScale == TimeScaleFor(r.gameState) && SaveConsistent(r.save, penalties + levelPoints)
    ensures var r := NextLevelSpec(g, levelPoints, buildIndex, sceneCount, older);
      r.timeScale == TimeScaleFor(r.gameState) && SaveConsistent(r.save, penalties)
  {
    RecordLevelConsistent(g.save, penalties, levelPoints);
  }

  class GameController {
    /** Which copy: the older one (Scripts/MonoBehaviour/GameController.cs) drives the
        camera from here and resumes before loading the next level. */
    const older: bool
    var gameState: GameState
    var timeScale: real
    var save: SaveData
    var events: seq<GameEvent>
    /** The points taken off by every loss so far. */
    ghost var penalties: int

    function Snapshot(): Game
      reads this
    {
      Game(gameState, timeScale, save, events)
    }

    /** Time runs exactly in Default, and the save data adds up. */
    ghost predicate Valid()
      reads this
    {
      timeScale == TimeScaleFor(gameState) && SaveConsistent(save, penalties)
    }

    /** Awake: a running game with empty save data. */
    constructor(olderCopy: bool)
      ensures Valid() && older == olderCopy && penalties == 0
      ensures Snapshot() == Game(Default, 1.0, SaveData(0, 0, []), [])
    {
      older := olderCopy;
      gameState := Default;
      timeScale := 1.0;
      save := SaveData(0, 0, []);
      events := [];
      penalties := 0;
    }

    function IsPaused(): (b: bool)
      reads this
      ensures b <==> gameState == Paused
    {
      gameState == Paused
    }

    function IsDefault(): (b: bool)
      reads this
      ensures b <==> gameState == Default
    {
      gameState == Default
    }

    method Resume()
      requires Valid()
      modifies this
      ensures Valid() && penalties == old(penalties)
      ensures Snapshot() == ResumeSpec(old(Snapshot()), older)
    {
      gameState := Default;
      timeScale := 1.0;
      if older {
        events := events + [ResumeCamera];
      }
      events := events + [EnablePlayer(true), PauseScreen(false)];
    }

    method Pause()
      requires Valid()
      modifies this
      ensures Valid() && penalties == old(penalties)
      ensures Snapshot() == PauseSpec(old(Snapshot()), older)
    {
      gameState := Paused;
      timeScale := 0.0;
      events := events + [EnablePlayer(false)];
      if older {
        events := events + [PauseCamera];
      }
      events := events + [PauseScreen(true)];
    }

    method Stop(s: GameState)
      requires Valid() && s != Default
      modifies this
      ensures Valid() && penalties == old(penalties)
      ensures Snapshot() == StopSpec(old(Snapshot()), s, older)
    {
      timeScale := 0.0;
      events := events + [EnablePlayer(false)];
      if older {
        events := events + [PauseCamera];
      }
      gameState := s;
    }

    method Win()
      requires Valid()
      modifies this
      ensures Valid() && penalties == old(penalties)
      ensures Snapshot() == WinSpec(old(Snapshot()), older)
    {
      Stop(Won);
    }

    method GameOver()
      requires Valid()
      modifies this
      ensures Valid() && penalties == old(penalties)
      ensures Snapshot() == StopSpec(old(Snapshot()), GameState.GameOver, older)
    {
      Stop(GameState.GameOver);
    }

    /** Lost: the level's points are the penalty; the game-over check is switched off, so
        the total may go negative. */
    method Lost(levelPoints: int)
      requires Valid()
      modifies this
      ensures Valid() && penalties == old(penalties) + levelPoints
      ensures Snapshot() == LostSpec(old(Snapshot()), levelPoints, older)
    {
      timeScale := 0.0;
      events := events + [PauseScreen(false), EnablePlayer(false)];
      if older {
        events := events + [PauseCamera];
      } else {
        events := events + [ResetPlayer];
      }
      gameState := GameState.Lost;
      save := save.(totalPoints := save.totalPoints - levelPoints);
      penalties := penalties + levelPoints;
    }

    /** NextLevel: record and save the level, then load the next scene, or the main menu
        after the last. */
    method NextLevel(levelPoints: int, buildIndex: int, sceneCount: int)
      requires Valid()
      modifies this
      ensures Valid() && penalties == old(penalties)
      ensures Snapshot() == NextLevelSpec(old(Snapshot()), levelPoints, buildIndex, sceneCount, older)
    {
      save := SaveData(save.totalPoints + levelPoints, save.curLevel + 1, save.pointsPerLevel + [levelPoints]);
      RecordLevelConsistent(old(save), penalties, levelPoints);
      events := events + [Saved(save)];
      if older {
        Resume();
      }
      if buildIndex < sceneCount - 1 {
        events := events + [LoadScene(buildIndex + 1)];
      } else {
        events := events + [LoadScene(0)];
      }
    }

    /** Quit: resume, then back to the main menu. */
    method Quit()
      requires Valid()
      modifies this
      ensures Valid() && penalties == old(penalties)
      ensures Snapshot() == ResumeSpec(old(Snapshot()), older).(events := ResumeSpec(old(Snapshot()), older).events + [LoadScene(0)])
    {
      Resume();
      events := events + [LoadScene(0)];
    }

    /** OnSceneLoaded (newer copy): a freshly loaded scene resumes the game. */
    method OnSceneLoaded()
      requires Valid() && !older
      modifies this
      ensures Valid() && penalties == old(penalties)
      ensures Snapshot() == ResumeSpec(old(Snapshot()), older)
    {
      Resume();
    }

    /** HandleInput, run in LateUpdate: the response Respond picks, carried out. */
    method HandleInput(inp: GameInput, cameraDefault: bool, playerIdle: bool, lc: LevelController,
                       buildIndex: int, sceneCount: int)
      requires Valid() && lc.gc == this && lc.Valid()
      modifies this, lc
      ensures Valid() && lc.Valid()
      ensures var r := Respond(old(gameState), inp, cameraDefault, playerIdle);
        && gameState == NextState(old(gameState), r, older)
        && (r == ResumeGame ==> Snapshot() == ResumeSpec(old(Snapshot()), older))
        && (r == PauseGame ==> Snapshot() == PauseSpec(old(Snapshot()), older))
        && (r == LoadMainMenu ==> Snapshot() == old(Snapshot()).(events := old(events) + [LoadScene(0)]))
        && (r == AdvanceLevel ==> Snapshot() == NextLevelSpec(old(Snapshot()), old(lc.points), buildIndex, sceneCount, older))
        && (r == RestartLevel ==>
              && Snapshot() == ResumeSpec(ResumeSpec(old(Snapshot()), older), older)
              && lc.points == 0 && lc.curEnergy == 0 && lc.curTime == 0.0 && lc.resets == old(lc.resets) + lc.objList
              && lc.gravityWrites == old(lc.gravityWrites) + [U.Scale(-lc.gravity, lc.startUp)] && lc.hud == old(lc.hud))
        && (r != RestartLevel ==> unchanged(lc))
        && (r == NoResponse ==> unchanged(this))
    {
      var r := Respond(gameState, inp, cameraDefault, playerIdle);
      match r {
        case ResumeGame =>
          Resume();
        case LoadMainMenu =>
          events := events + [LoadScene(0)];
        case AdvanceLevel =>
          NextLevel(lc.points, buildIndex, sceneCount);
        case RestartLevel =>
          lc.Restart();
          Resume();
        case PauseGame =>
          Pause();
        case NoResponse =>
      }
    }
  }
}
