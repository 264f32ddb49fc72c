/** The menu cube of _Scripts/UI/MenuCube.cs and its older copy Scripts/MonoBehaviour/MenuCube.cs:
    a cube with a menu text on each of four sides. Changing the selection turns the cube a
    quarter turn about its horizontal axis, writes the new entry's text on the side coming to
    face the camera, and the rotation is then played out tick by tick until a quarter turn has
    been covered.

    The two copies differ in the sound the newer one plays (its `audio` parameter) and in the
    floating-point rotation they apply; the older copy is ChangeSelectedEntry with `audio`
    false. The cube's orientation is recorded only as "resting on side k" or "turning". */
module MenuCube {
  import opened Wrappers
  import U = Utils

  /** C#'s `%` on int, which truncates toward zero. */
  function CsRem(a: int, b: int): (r: int)
    requires b > 0
    ensures a >= 0 ==> r == a % b
    ensures a < 0 ==> r == -((-a) % b)
  {
    if a >= 0 then a % b else -((-a) % b)
  }

  /** The side that comes to face the camera: the side moves by -inv*dir and wraps -1 to 3,
      everything else modulo 4. For a side in 0..3 and a one-step move this is the side
      index modulo 4. */
  function NextSide(side: int, dir: int, inv: int): (r: int)
    ensures 0 <= side < 4 && -1 <= dir <= 1 && inv in {-1, 1} ==>
      0 <= r < 4 && r == (side - inv * dir) % 4
  {
    var s := side + inv * -dir;
    if s == -1 then 3 else CsRem(s, 4)
  }

  /** The entry selected next: it moves by inv*dir and wraps -1 to count-1, everything else
      modulo count. For an entry in range and a one-step move this is the entry index modulo
      the number of entries. */
  function NextEntry(entry: int, dir: int, inv: int, count: int): (r: int)
    requires count > 0
    ensures 0 <= entry < count && -1 <= dir <= 1 && inv in {-1, 1} ==>
      0 <= r < count && r == (entry + inv * dir) % count
  {
    var e := entry + inv * dir;
    if e == -1 then count - 1 else CsRem(e, count)
  }

  lemma MulAtLeast(q: int, n: int)
    requires q >= 1 && n > 0
    ensures q * n >= n
  {
  }

  lemma RemSmall(x: int, n: int)
    requires 0 <= x < n
    ensures CsRem(x, n) == x
  {
    var q, r := x / n, x % n;
    assert x == q * n + r && 0 <= r < n;
    if q >= 1 {
      MulAtLeast(q, n);
    } else if q <= -1 {
      MulAtLeast(-q, n);
    }
  }

  lemma RemSelf(n: int)
    requires n > 0
    ensures CsRem(n, n) == 0
  {
    var q, r := n / n, n % n;
    assert n == q * n + r && 0 <= r < n;
    if q >= 2 {
      MulAtLeast(q - 1, n);
    } else if q <= 0 {
      MulAtLeast(1 - q, n);
    }
  }

  /** One step up wraps the last entry to the first; one step down the first to the last. */
  lemma StepEntry(entry: int, step: int, count: int)
    requires 0 <= entry < count && step in {-1, 0, 1}
    ensures NextEntry(entry, step, 1, count) ==
      if entry + step == count then 0 else if entry + step == -1 then count - 1 else entry + step
  {
    if entry + step == count {
      RemSelf(count);
    } else if entry + step >= 0 {
      RemSmall(entry + step, count);
    }
  }

  /** A move followed by the opposite move brings the same side to face the camera. */
  lemma SideMoveThenBack(side: int, dir: int, inv: int)
    requires 0 <= side < 4 && -1 <= dir <= 1 && inv in {-1, 1}
    ensures NextSide(NextSide(side, dir, inv), -dir, inv) == side
  {
  }

  /** A move followed by the opposite move selects the same entry again. */
  lemma EntryMoveThenBack(entry: int, dir: int, inv: int, count: int)
    requires 0 < count && 0 <= entry < count && -1 <= dir <= 1 && inv in {-1, 1}
    ensures NextEntry(NextEntry(entry, dir, inv, count), -dir, inv, count) == entry
  {
    var step := if inv == 1 then dir else -dir;
    assert NextEntry(entry, dir, inv, count) == NextEntry(entry, step, 1, count);
    StepEntry(entry, step, count);
    var e := NextEntry(entry, step, 1, count);
    assert NextEntry(e, -dir, inv, count) == NextEntry(e, -step, 1, count);
    StepEntry(e, -step, count);
  }

  datatype Sound = SelectionChange | SelectionConfirm

  /** The cube's transform: resting with side k facing the camera, or part-way through a
      turn. */
  datatype CubePose = AtSide(side: int) | Turning

  /** What a cube shows and how it is turned: every field but the sounds. */
  datatype CubeFace = CubeFace(rotating: int, invert: int, currentSide: int, curMenuEntry: int,
                               angle: real, texts: seq<string>, pose: CubePose)

  /** A selection change on a cube at rest, sound aside: the side and the entry move one
      step, the turn starts in direction dir, and the side now facing the camera shows the
      new entry. */
  function Turned(f: CubeFace, dir: int, entries: seq<MenuEntry>): (r: CubeFace)
    requires 0 <= f.currentSide < 4 == |f.texts| && 0 <= f.curMenuEntry < |entries|
    requires -1 <= dir <= 1 && f.invert in {-1, 1}
    ensures 0 <= r.currentSide < 4 == |r.texts| && 0 <= r.curMenuEntry < |entries|
    ensures r.texts[r.currentSide] == entries[r.curMenuEntry].text
    ensures forall k :: 0 <= k < 4 && k != r.currentSide ==> r.texts[k] == f.texts[k]
    ensures r.rotating == dir && r.angle == f.angle && r.pose == f.pose && r.invert == f.invert
    ensures r.curMenuEntry == (f.curMenuEntry + f.invert * dir) % |entries|
    ensures r.currentSide == (f.currentSide - f.invert * dir) % 4
  {
    var side := NextSide(f.currentSide, dir, f.invert);
    var entry := NextEntry(f.curMenuEntry, dir, f.invert, |entries|);
    f.(currentSide := side, curMenuEntry := entry, rotating := dir, texts := f.texts[side := entries[entry].text])
  }

  /** MenuEntry: the text shown and the cube it opens, if any. The callback is not modelled. */
  datatype MenuEntry = MenuEntry(text: string, subMenu: Option<MenuCube>)

  /** InitTexts: the selected entry on the facing side, then the last entry or entry 1 above
      and the other one below, by invertMenuCntrl. */
  function InitialTexts(texts: seq<string>, entries: seq<MenuEntry>, side: int, entry: int, invert: bool): (r: seq<string>)
    requires |texts| == 4 && 0 <= side < 4 && 0 <= entry < |entries| && |entries| >= 2
    ensures |r| == 4
    ensures r[1] == entries[if invert then |entries| - 1 else 1].text
    ensures r[3] == entries[if invert then 1 else |entries| - 1].text
    ensures side != 1 && side != 3 ==> r[side] == entries[entry].text
    ensures forall k :: 0 <= k < 4 && k != 1 && k != 3 && k != side ==> r[k] == texts[k]
  {
    var above := if invert then |entries| - 1 else 1;
    var below := if !invert then |entries| - 1 else 1;
    texts[side := entries[entry].text][1 := entries[above].text][3 := entries[below].text]
  }

  class MenuCube {
    const entries: seq<MenuEntry>
    const invertMenuCntrl: bool
    const rotationTime: real

    var rotating: int
    var invert: int
    var currentSide: int
    var curMenuEntry: int
    var angle: real
    var texts: seq<string>
    var pose: CubePose
    var sounds: seq<Sound>

    function Face(): CubeFace
      reads this
    {
      CubeFace(rotating, invert, currentSide, curMenuEntry, angle, texts, pose)
    }

    /** The facing side shows the selected entry; a cube at rest has turned nothing and
        rests on the current side. */
    predicate Valid()
      reads this
    {
      && |entries| >= 1 && rotationTime > 0.0
      && invert == (if invertMenuCntrl then -1 else 1)
      && 0 <= currentSide < 4 && 0 <= curMenuEntry < |entries|
      && -1 <= rotating <= 1
      && 0.0 <= angle < 90.0
      && |texts| == 4 && texts[currentSide] == entries[curMenuEntry].text
      && (rotating == 0 ==> angle == 0.0 && pose == AtSide(currentSide))
    }

    /** Awake: the default entry faces the camera on side 0 and InitTexts fills the texts. */
    constructor(menuEntries: seq<MenuEntry>, invertControls: bool, turnTime: real, defaultEntry: int,
                initialTexts: seq<string>)
      requires |menuEntries| >= 2 && 0 <= defaultEntry < |menuEntries| && turnTime > 0.0
      requires |initialTexts| == 4
      ensures Valid()
      ensures entries == menuEntries && invertMenuCntrl == invertControls && rotationTime == turnTime
      ensures currentSide == 0 && curMenuEntry == defaultEntry && rotating == 0 && sounds == []
      ensures texts == InitialTexts(initialTexts, menuEntries, 0, defaultEntry, invertControls)
    {
      entries := menuEntries;
      invertMenuCntrl := invertControls;
      rotationTime := turnTime;
      rotating := 0;
      currentSide := 0;
      curMenuEntry := defaultEntry;
      angle := 0.0;
      invert := if invertControls then -1 else 1;
      pose := AtSide(0);
      sounds := [];
      texts := initialTexts;
      new;
      InitTexts();
    }

    method InitTexts()
      requires |texts| == 4 && 0 <= currentSide < 4 && 0 <= curMenuEntry < |entries| && |entries| >= 2
      modifies this
      ensures unchanged(this`currentSide, this`curMenuEntry, this`rotating, this`angle, this`invert, this`pose, this`sounds)
      ensures texts == InitialTexts(old(texts), entries, currentSide, curMenuEntry, invertMenuCntrl)
    {
      texts := texts[currentSide := entries[curMenuEntry].text];
      var entryAbove := if invertMenuCntrl then |entries| - 1 else 1;
      texts := texts[1 := entries[entryAbove].text];
      var entryBelow := if !invertMenuCntrl then |entries| - 1 else 1;
      texts := texts[3 := entries[entryBelow].text];
    }

    /** ChangeSelectedEntry: ignored while the cube is turning; otherwise the side and the
        entry move one step, the turn starts in direction dir, and the side coming to face
        the camera shows the new entry. */
    method ChangeSelectedEntry(dir: int, audio: bool)
      requires Valid() && -1 <= dir <= 1
      modifies this
      ensures Valid()
      ensures old(rotating) != 0 ==> unchanged(this)
      ensures old(rotating) == 0 ==>
        && currentSide == NextSide(old(currentSide), dir, invert)
        && curMenuEntry == NextEntry(old(curMenuEntry), dir, invert, |entries|)
        && rotating == dir
        && texts == old(texts)[currentSide := entries[curMenuEntry].text]
        && sounds == old(sounds) + (if audio then [SelectionChange] else [])
        && angle == old(angle) && pose == old(pose) && invert == old(invert)
      ensures old(rotating) == 0 ==> Face() == Turned(old(Face()), dir, entries)
    {
      if rotating != 0 {
        return;
      }
      if audio {
        sounds := sounds + [SelectionChange];
      }
      currentSide := NextSide(currentSide, dir, invert);
      rotating := dir;
      curMenuEntry := NextEntry(curMenuEntry, dir, invert, |entries|);
      texts := texts[currentSide := entries[curMenuEntry].text];
    }

    /** RotateCube: the turn advances by |dAngle|; once a quarter turn is covered the cube
        snaps to rest on the current side. */
    method RotateCube(dt: real)
      requires Valid() && dt >= 0.0 && rotating != 0
      modifies this
      ensures Valid()
      ensures var covered := old(angle) + U.Abs(old(invert * rotating) as real * 90.0 * (1.0 / rotationTime) * dt);
        && (covered >= 90.0 ==> angle == 0.0 && rotating == 0 && pose == AtSide(currentSide))
        && (covered < 90.0 ==> angle == covered && rotating == old(rotating) && pose == Turning)
      ensures currentSide == old(currentSide) && curMenuEntry == old(curMenuEntry)
      ensures texts == old(texts) && sounds == old(sounds) && invert == old(invert)
    {
      var dAngle := (invert * rotating) as real * 90.0 * (1.0 / rotationTime) * dt;
      angle := angle + U.Abs(dAngle);
      pose := Turning;
      if angle >= 90.0 {
        pose := AtSide(currentSide);
        angle := 0.0;
        rotating := 0;
      }
    }

    /** FixedUpdate (Update in the older copy): turn only while a turn is under way. */
    method FixedUpdate(dt: real)
      requires Valid() && dt >= 0.0
      modifies this
      ensures Valid()
      ensures old(rotating) == 0 ==> unchanged(this)
      ensures old(rotating) != 0 ==>
        var covered := old(angle) + U.Abs(old(invert * rotating) as real * 90.0 * (1.0 / rotationTime) * dt);
        && (covered >= 90.0 ==> angle == 0.0 && rotating == 0 && pose == AtSide(currentSide))
        && (covered < 90.0 ==> angle == covered && rotating == old(rotating) && pose == Turning)
      ensures currentSide == old(currentSide) && curMenuEntry == old(curMenuEntry) && texts == old(texts)
      ensures sounds == old(sounds) && invert == old(invert)
    {
      if rotating != 0 {
        RotateCube(dt);
      }
    }

    method GetCurMenuEntry() returns (e: MenuEntry)
      requires Valid()
      ensures e == entries[curMenuEntry] && e.text == texts[currentSide]
    {
      e := entries[curMenuEntry];
    }

    /** Confirm: the newer copy plays the confirm sound; the entry's callback is returned for
        the caller to invoke. */
    method Confirm(audio: bool) returns (e: MenuEntry)
      requires Valid()
      modifies this
      ensures Valid() && e == entries[curMenuEntry]
      ensures sounds == old(sounds) + (if audio then [SelectionConfirm] else [])
      ensures unchanged(this`currentSide, this`curMenuEntry, this`rotating, this`angle, this`texts, this`pose, this`invert)
    {
      if audio {
        sounds := sounds + [SelectionConfirm];
      }
      e := entries[curMenuEntry];
    }
  }
}
