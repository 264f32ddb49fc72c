/** The main-menu controller of _Scripts/Controller/MainMenuController.cs and its older copy
    Scripts/MonoBehaviour/Controller/MainMenuController.cs: a stack of menu cubes entered
    through sub-menus and left with GoBack, a panel that covers the menu, and the flags that
    keep one button press from being handled twice.

    Whether any animation is playing (the selector's hover and warp animations, the panel
    fade and the menu transition) and the buttons pressed on a frame are inputs. What the
    controller hands to the engine (loading the next scene, quitting, opening and closing a
    panel, fading out) is recorded as a sequence of events. The callback attached to a
    confirmed menu entry is recorded, not run. */
module MainMenu {
  import opened Wrappers
  import MC = MenuCube

  type Panel = nat

  datatype MenuEvent =
    | Confirmed(entry: MC.MenuEntry)   // MenuCube.Confirm hands the entry's callback over
    | LoadNextScene                    // Play: SceneManager.LoadScene(buildIndex + 1)
    | QuitGame                         // Quit
    | PanelOpened(panel: Panel)        // OpenMenu.Open on the panel
    | PanelClosed(panel: Panel)        // OpenMenu.Close on the panel
    | StartFade                        // StartGame: selector warp, fade-out and start sound

  /** The buttons of one frame: Submit, Cancel and Back pressed down, and the raw vertical
      axis. */
  datatype MenuInput = MenuInput(submit: bool, cancel: bool, back: bool, vertical: int)

  /** The animations IsAnimPlaying polls. */
  datatype Animations = Animations(selectorHover: bool, selectorWarp: bool, panelFade: bool, transition: bool)

  /** IsAnimPlaying: any of the four. */
  function IsAnimPlaying(a: Animations): (r: bool)
    ensures r <==> !(!a.selectorHover && !a.selectorWarp && !a.panelFade && !a.transition)
  {
    a.selectorHover || a.selectorWarp || a.panelFade || a.transition
  }

  /** What Update does with the input of a frame, at most one thing. */
  datatype Action = NoAction | ConfirmEntry | Back | SelectNext | SelectPrevious | ClearPanelFlags | ClosePanelAction

  /** The action the menu's own branches choose (no panel open), shared by both copies:
      Submit, then Cancel, then Back, then the vertical axis at +1, then at -1. */
  function MenuAction(inp: MenuInput): (a: Action)
    ensures a in {NoAction, ConfirmEntry, Back, SelectNext, SelectPrevious}
    ensures a == ConfirmEntry <==> inp.submit
    ensures a == Back <==> !inp.submit && (inp.cancel || inp.back)
    ensures a == SelectNext <==> !inp.submit && !inp.cancel && !inp.back && inp.vertical == 1
    ensures a == SelectPrevious <==> !inp.submit && !inp.cancel && !inp.back && inp.vertical == -1
  {
    if inp.submit then ConfirmEntry
    else if inp.cancel then Back
    else if inp.back then Back
    else if inp.vertical == 1 then SelectNext
    else if inp.vertical == -1 then SelectPrevious
    else NoAction
  }

  /** Update's choice in the newer copy: nothing while an animation plays; the menu's
      actions with no panel open; a pending close clears the flags; with the panel open,
      Cancel or Back closes it. */
  function UpdateAction(panelIsOpen: bool, closePanel: bool, inp: MenuInput, animPlaying: bool): (a: Action)
    ensures animPlaying ==> a == NoAction
    ensures !animPlaying && !panelIsOpen ==> a == MenuAction(inp)
    ensures a == ClearPanelFlags <==> !animPlaying && panelIsOpen && closePanel
    ensures a == ClosePanelAction <==> !animPlaying && panelIsOpen && !closePanel && (inp.cancel || inp.back)
    ensures panelIsOpen ==> a in {NoAction, ClearPanelFlags, ClosePanelAction}
  {
    if animPlaying then NoAction
    else if !panelIsOpen then MenuAction(inp)
    else if closePanel then ClearPanelFlags
    else if inp.cancel || inp.back then ClosePanelAction
    else NoAction
  }

  /** Update's choice in the older copy: no animation check, and no input is handled while
      a panel is open and not closing. */
  function LegacyUpdateAction(panelIsOpen: bool, closePanel: bool, inp: MenuInput): (a: Action)
    ensures !panelIsOpen ==> a == MenuAction(inp)
    ensures a == ClearPanelFlags <==> panelIsOpen && closePanel
    ensures panelIsOpen && !closePanel ==> a == NoAction
  {
    if !panelIsOpen then MenuAction(inp)
    else if closePanel then ClearPanelFlags
    else NoAction
  }

  /** The two copies choose alike when no animation plays, except that the newer one closes
      an open panel on Cancel or Back where the older one ignores the input. */
  lemma UpdateActionsAgree(panelIsOpen: bool, closePanel: bool, inp: MenuInput)
    ensures UpdateAction(panelIsOpen, closePanel, inp, false) == LegacyUpdateAction(panelIsOpen, closePanel, inp)
      <==> !(panelIsOpen && !closePanel && (inp.cancel || inp.back))
  {
  }

  /** The controller's state as a value: the current cube, the stack of cubes below it (its
      top at the end), the flags, the open panel and the events so far. */
  datatype MenuState = MenuState(
    cube: MC.MenuCube, stack: seq<MC.MenuCube>,
    panelIsOpen: bool, closePanel: bool, waitToStart: bool,
    curPanel: Option<Panel>, events: seq<MenuEvent>)

  /** ChangeMenu: with a sub-menu, the current cube is pushed and the sub-menu becomes
      current; without one nothing changes. */
  function ChangeMenuSpec(s: MenuState, subMenu: Option<MC.MenuCube>): (r: MenuState)
    ensures subMenu.None? ==> r == s
    ensures subMenu.Some? ==>
      (r.cube == subMenu.value && r.stack == s.stack + [s.cube] && r == s.(cube := r.cube, stack := r.stack))
  {
    match subMenu
    case None => s
    case Some(sub) => s.(cube := sub, stack := s.stack + [s.cube])
  }

  /** GoBack: with a cube on the stack it is popped into the current cube; otherwise the
      game quits. */
  function GoBackSpec(s: MenuState): (r: MenuState)
    ensures |s.stack| > 0 ==>
      (r.cube == s.stack[|s.stack| - 1] && r.stack + [r.cube] == s.stack && r == s.(cube := r.cube, stack := r.stack))
    ensures |s.stack| == 0 ==> r == s.(events := s.events + [QuitGame])
  {
    if |s.stack| > 0 then s.(cube := s.stack[|s.stack| - 1], stack := s.stack[..|s.stack| - 1])
    else s.(events := s.events + [QuitGame])
  }

  /** OpenPanel: the panel opens over the menu and the current cube is pushed. */
  function OpenPanelSpec(s: MenuState, p: Panel): (r: MenuState)
    ensures r.panelIsOpen && r.curPanel == Some(p) && r.stack == s.stack + [s.cube]
    ensures r.events == s.events + [PanelOpened(p)]
    ensures r.cube == s.cube && r.closePanel == s.closePanel && r.waitToStart == s.waitToStart
  {
    s.(panelIsOpen := true, curPanel := Some(p), stack := s.stack + [s.cube],
       events := s.events + [PanelOpened(p)])
  }

  /** ClosePanel: ignored while an animation plays; otherwise the panel closes, the close is
      left pending for the next Update, and the cube on top of the stack becomes current. */
  function ClosePanelSpec(s: MenuState, p: Panel, animPlaying: bool): (r: MenuState)
    requires animPlaying || |s.stack| > 0
    ensures animPlaying ==> r == s
    ensures !animPlaying ==>
      && r.closePanel && r.curPanel.None? && r.stack + [r.cube] == s.stack
      && r.events == s.events + [PanelClosed(p)]
      && r.panelIsOpen == s.panelIsOpen && r.waitToStart == s.waitToStart
  {
    if animPlaying then s
    else s.(closePanel := true, cube := s.stack[|s.stack| - 1], stack := s.stack[..|s.stack| - 1],
            curPanel := None, events := s.events + [PanelClosed(p)])
  }

  /** StartGame: the fade-out starts and the start waits for the animations to end. */
  function StartGameSpec(s: MenuState): (r: MenuState)
    ensures r.waitToStart && r.events == s.events + [StartFade]
    ensures r.(waitToStart := s.waitToStart, events := s.events) == s
  {
    s.(waitToStart := true, events := s.events + [StartFade])
  }

  /** The older OpenPanel and ClosePanel: a flag and the panel's own call, nothing else. */
  function OpenPanelLegacySpec(s: MenuState, p: Panel): (r: MenuState)
    ensures r.panelIsOpen && r.events == s.events + [PanelOpened(p)]
    ensures r.(panelIsOpen := s.panelIsOpen, events := s.events) == s
  {
    s.(panelIsOpen := true, events := s.events + [PanelOpened(p)])
  }

  function ClosePanelLegacySpec(s: MenuState, p: Panel): (r: MenuState)
    ensures r.closePanel && r.events == s.events + [PanelClosed(p)]
    ensures r.(closePanel := s.closePanel, events := s.events) == s
  {
    s.(closePanel := true, events := s.events + [PanelClosed(p)])
  }

  /** The effect of one Update on the controller's own state, given the action chosen and
      the entry the current cube would confirm. A pending start loads the next scene
      first; the flag is not cleared. */
  function UpdateSpec(s: MenuState, a: Action, animPlaying: bool, entry: MC.MenuEntry): (r: MenuState)
    requires a == ClosePanelAction ==> |s.stack| > 0 && s.curPanel.Some?
  {
    var s1 := if !animPlaying && s.waitToStart then s.(events := s.events + [LoadNextScene]) else s;
    match a
    case ConfirmEntry => s1.(events := s1.events + [Confirmed(entry)])
    case Back => GoBackSpec(s1)
    case ClearPanelFlags => s1.(closePanel := false, panelIsOpen := false)
    case ClosePanelAction => ClosePanelSpec(s1, s.curPanel.value, false)
    case _ => s1
  }

  /** Entering a sub-menu and going back leaves the controller as it was. */
  lemma ChangeMenuThenGoBack(s: MenuState, sub: MC.MenuCube)
    ensures GoBackSpec(ChangeMenuSpec(s, Some(sub))) == s
  {
    var t := ChangeMenuSpec(s, Some(sub));
    assert t.stack[..|t.stack| - 1] == s.stack;
  }

  /** With no panel open, opening a panel, closing it once no animation plays and the next
      idle Update bring back the same cube, stack and flags; only the two panel events
      remain. */
  lemma OpenPanelThenClose(s: MenuState, p: Panel, inp: MenuInput, entry: MC.MenuEntry)
    requires !s.panelIsOpen && !s.closePanel && s.curPanel.None? && !s.waitToStart
    ensures var closed := ClosePanelSpec(OpenPanelSpec(s, p), p, false);
      var a := UpdateAction(closed.panelIsOpen, closed.closePanel, inp, false);
      && a == ClearPanelFlags
      && UpdateSpec(closed, a, false, entry) == s.(events := s.events + [PanelOpened(p), PanelClosed(p)])
  {
    var op := OpenPanelSpec(s, p);
    assert op.stack[..|op.stack| - 1] == s.stack;
  }

  /** In the older copy an open and a close never touch the stack or the current cube, and
      the next Update clears both flags. */
  lemma LegacyOpenPanelThenClose(s: MenuState, p: Panel, inp: MenuInput, entry: MC.MenuEntry)
    requires !s.panelIsOpen && !s.closePanel && !s.waitToStart
    ensures var closed := ClosePanelLegacySpec(OpenPanelLegacySpec(s, p), p);
      var a := LegacyUpdateAction(closed.panelIsOpen, closed.closePanel, inp);
      && closed.stack == s.stack && closed.cube == s.cube
      && a == ClearPanelFlags
      && UpdateSpec(closed, a, true, entry) == s.(events := s.events + [PanelOpened(p), PanelClosed(p)])
  {
  }

  /** Nothing the newer Update does while an animation plays changes the controller, and a
      pending start waits for it. */
  lemma AnimationBlocksUpdate(s: MenuState, inp: MenuInput, entry: MC.MenuEntry)
    ensures var a := UpdateAction(s.panelIsOpen, s.closePanel, inp, true);
      UpdateSpec(s, a, true, entry) == s
  {
  }

  class MainMenuController {
    var menuCube: MC.MenuCube
    var stack: seq<MC.MenuCube>
    var panelIsOpen: bool
    var closePanel: bool
    var waitToStart: bool
    var curPanel: Option<Panel>
    var events: seq<MenuEvent>
    /** The cubes of the menu: the current one, those on the stack, and every sub-menu of
        one of them. */
    ghost var cubes: set<MC.MenuCube>

    function Snapshot(): MenuState
      reads this
    {
      MenuState(menuCube, stack, panelIsOpen, closePanel, waitToStart, curPanel, events)
    }

    /** Every cube of the menu is a valid cube, and the menu is closed under sub-menus. */
    ghost predicate Valid()
      reads this, cubes
    {
      && menuCube in cubes
      && (forall c :: c in stack ==> c in cubes)
      && (forall c :: c in cubes ==> c.Valid())
      && (forall c, k :: c in cubes && 0 <= k < |c.entries| && c.entries[k].subMenu.Some? ==>
            c.entries[k].subMenu.value in cubes)
    }

    /** Awake: an empty stack and no flags set. */
    constructor(start: MC.MenuCube, ghost menu: set<MC.MenuCube>)
      requires start in menu && forall c :: c in menu ==> c.Valid()
      requires forall c, k :: c in menu && 0 <= k < |c.entries| && c.entries[k].subMenu.Some? ==>
        c.entries[k].subMenu.value in menu
      ensures Valid() && cubes == menu
      ensures Snapshot() == MenuState(start, [], false, false, false, None, [])
    {
      menuCube := start;
      stack := [];
      panelIsOpen, closePanel, waitToStart := false, false, false;
      curPanel := None;
      events := [];
      cubes := menu;
    }

    /** ChangeMenu: enter the sub-menu of the current entry, if it has one. */
    method ChangeMenu()
      requires Valid()
      modifies this
      ensures Valid() && cubes == old(cubes)
      ensures Snapshot() == ChangeMenuSpec(old(Snapshot()), old(menuCube.entries[menuCube.curMenuEntry].subMenu))
    {
      var curEntry := menuCube.GetCurMenuEntry();
      if curEntry.subMenu.Some? {
        stack := stack + [menuCube];
        menuCube := curEntry.subMenu.value;
      }
    }

    /** GoBack: return to the cube below, turning the cube being left back one entry without
      sound; with no cube below, quit. */
    method GoBack()
      requires Valid()
      modifies this, menuCube
      ensures Valid() && cubes == old(cubes)
      ensures Snapshot() == GoBackSpec(old(Snapshot()))
      ensures |old(stack)| > 0 && old(menuCube.rotating) == 0 ==>
        && old(menuCube).curMenuEntry == MC.NextEntry(old(menuCube.curMenuEntry), -1, old(menuCube).invert, |old(menuCube).entries|)
        && old(menuCube).rotating == -1 && old(menuCube).sounds == old(menuCube.sounds)
        && old(menuCube).Face() == MC.Turned(old(menuCube.Face()), -1, old(menuCube).entries)
      ensures |old(stack)| == 0 || old(menuCube.rotating) != 0 ==> unchanged(old(menuCube))
    {
      if |stack| > 0 {
        var below := stack[|stack| - 1];
        stack := stack[..|stack| - 1];
        menuCube.ChangeSelectedEntry(-1, false);
        KeepsCubesValid(old(menuCube));
        menuCube := below;
      } else {
        events := events + [QuitGame];
      }
    }

    /** The current cube turns one entry in direction dir. */
    method Select(dir: int, audio: bool)
      requires Valid() && dir in {-1, 1}
      modifies menuCube
      ensures Valid()
      ensures old(menuCube.rotating) == 0 ==>
        && menuCube.curMenuEntry == MC.NextEntry(old(menuCube.curMenuEntry), dir, menuCube.invert, |menuCube.entries|)
        && menuCube.sounds == old(menuCube.sounds) + (if audio then [MC.SelectionChange] else [])
        && menuCube.Face() == MC.Turned(old(menuCube.Face()), dir, menuCube.entries)
      ensures old(menuCube.rotating) != 0 ==> unchanged(menuCube)
    {
      menuCube.ChangeSelectedEntry(dir, audio);
      KeepsCubesValid(menuCube);
    }

    /** The current cube confirms its entry, which is returned. */
    method ConfirmCurrent(audio: bool) returns (e: MC.MenuEntry)
      requires Valid()
      modifies menuCube
      ensures Valid() && e == old(menuCube.entries[menuCube.curMenuEntry])
      ensures menuCube.sounds == old(menuCube.sounds) + (if audio then [MC.SelectionConfirm] else [])
      ensures menuCube.Face() == old(menuCube.Face())
    {
      e := menuCube.Confirm(audio);
      KeepsCubesValid(menuCube);
    }

    /** After a change to one cube that keeps it valid, every cube is still valid. */
    lemma KeepsCubesValid(changed: MC.MenuCube)
      requires changed in cubes && changed.Valid()
      requires forall c :: c in cubes && c != changed ==> c.Valid()
      ensures forall c :: c in cubes ==> c.Valid()
    {
    }

    /** OpenPanel: the panel opens and the current cube goes on the stack. */
    method OpenPanel(p: Panel)
      requires Valid()
      modifies this
      ensures Valid() && cubes == old(cubes)
      ensures Snapshot() == OpenPanelSpec(old(Snapshot()), p)
    {
      events := events + [PanelOpened(p)];
      panelIsOpen := true;
      curPanel := Some(p);
      stack := stack + [menuCube];
    }

    /** ClosePanel: ignored while an animation plays; otherwise the panel closes and the cube
        on top of the stack comes back. Stack.Pop throws on an empty stack, which the caller
        must rule out. */
    method ClosePanel(p: Panel, animPlaying: bool)
      requires Valid() && (animPlaying || |stack| > 0)
      modifies this
      ensures Valid() && cubes == old(cubes)
      ensures Snapshot() == ClosePanelSpec(old(Snapshot()), p, animPlaying)
    {
      if animPlaying {
        return;
      }
      events := events + [PanelClosed(p)];
      closePanel := true;
      menuCube := stack[|stack| - 1];
      stack := stack[..|stack| - 1];
      curPanel := None;
    }

    /** StartGame: fade out and wait for the animations before loading the game. */
    method StartGame()
      requires Valid()
      modifies this
      ensures Valid() && cubes == old(cubes)
      ensures Snapshot() == StartGameSpec(old(Snapshot()))
    {
      events := events + [StartFade];
      waitToStart := true;
    }

    /** Update of the newer copy. The current cube confirms with its sound, and turns with
        its sound on the vertical axis. */
    method Update(inp: MenuInput, anims: Animations)
      requires Valid()
      requires UpdateAction(panelIsOpen, closePanel, inp, IsAnimPlaying(anims)) == ClosePanelAction ==>
        |stack| > 0 && curPanel.Some?
      modifies this, menuCube
      ensures Valid() && cubes == old(cubes)
      ensures var a := UpdateAction(old(panelIsOpen), old(closePanel), inp, IsAnimPlaying(anims));
        && Snapshot() == UpdateSpec(old(Snapshot()), a, IsAnimPlaying(anims), old(menuCube.entries[menuCube.curMenuEntry]))
        && (a == ConfirmEntry ==>
              old(menuCube).sounds == old(menuCube.sounds) + [MC.SelectionConfirm] && old(menuCube).Face() == old(menuCube.Face()))
        && (a in {SelectNext, SelectPrevious} && old(menuCube.rotating) == 0 ==>
              old(menuCube).curMenuEntry == MC.NextEntry(old(menuCube.curMenuEntry), if a == SelectNext then 1 else -1,
                                                          old(menuCube).invert, |old(menuCube).entries|)
              && old(menuCube).sounds == old(menuCube.sounds) + [MC.SelectionChange]
              && old(menuCube).Face() == MC.Turned(old(menuCube.Face()), if a == SelectNext then 1 else -1, old(menuCube).entries))
        && (a == Back && |old(stack)| > 0 && old(menuCube.rotating) == 0 ==>
              old(menuCube).sounds == old(menuCube.sounds)
              && old(menuCube).Face() == MC.Turned(old(menuCube.Face()), -1, old(menuCube).entries))
        && (a in {SelectNext, SelectPrevious} && old(menuCube.rotating) != 0 ==> unchanged(old(menuCube)))
        && (a == Back && (|old(stack)| == 0 || old(menuCube.rotating) != 0) ==> unchanged(old(menuCube)))
        && (a !in {ConfirmEntry, Back, SelectNext, SelectPrevious} ==> unchanged(old(menuCube)))
    {
      var animPlaying := IsAnimPlaying(anims);
      var a := UpdateAction(panelIsOpen, closePanel, inp, animPlaying);
      if !animPlaying && waitToStart {
        events := events + [LoadNextScene];
      }
      match a {
        case ConfirmEntry =>
          var e := ConfirmCurrent(true);
          events := events + [Confirmed(e)];
        case Back =>
          GoBack();
        case SelectNext =>
          Select(1, true);
        case SelectPrevious =>
          Select(-1, true);
        case ClearPanelFlags =>
          closePanel := false;
          panelIsOpen := false;
        case ClosePanelAction =>
          ClosePanel(curPanel.value, false);
        case NoAction =>
      }
    }

    /** Update of the older copy: no animation check, cubes without sound, and an open panel
        that is not closing ignores all input. */
    method UpdateLegacy(inp: MenuInput)
      requires Valid()
      modifies this, menuCube
      ensures Valid() && cubes == old(cubes)
      ensures var a := LegacyUpdateAction(old(panelIsOpen), old(closePanel), inp);
        && Snapshot() == UpdateSpec(old(Snapshot()).(waitToStart := false), a, false, old(menuCube.entries[menuCube.curMenuEntry])).(waitToStart := old(waitToStart))
        && (a == ConfirmEntry ==> old(menuCube).sounds == old(menuCube.sounds) && old(menuCube).Face() == old(menuCube.Face()))
        && (a in {SelectNext, SelectPrevious} && old(menuCube.rotating) == 0 ==>
              old(menuCube).curMenuEntry == MC.NextEntry(old(menuCube.curMenuEntry), if a == SelectNext then 1 else -1,
                                                          old(menuCube).invert, |old(menuCube).entries|)
              && old(menuCube).sounds == old(menuCube.sounds)
              && old(menuCube).Face() == MC.Turned(old(menuCube.Face()), if a == SelectNext then 1 else -1, old(menuCube).entries))
        && (a == Back && |old(stack)| > 0 && old(menuCube.rotating) == 0 ==>
              old(menuCube).sounds == old(menuCube.sounds)
              && old(menuCube).Face() == MC.Turned(old(menuCube.Face()), -1, old(menuCube).entries))
        && (a in {SelectNext, SelectPrevious} && old(menuCube.rotating) != 0 ==> unchanged(old(menuCube)))
        && (a == Back && (|old(stack)| == 0 || old(menuCube.rotating) != 0) ==> unchanged(old(menuCube)))
        && (a !in {ConfirmEntry, Back, SelectNext, SelectPrevious} ==> unchanged(old(menuCube)))
    {
      var a := LegacyUpdateAction(panelIsOpen, closePanel, inp);
      match a {
        case ConfirmEntry =>
          var e := ConfirmCurrent(false);
          events := events + [Confirmed(e)];
        case Back =>
          GoBack();
        case SelectNext =>
          Select(1, false);
        case SelectPrevious =>
          Select(-1, false);
        case ClearPanelFlags =>
          closePanel := false;
          panelIsOpen := false;
        case _ =>
      }
    }

    /** The older OpenPanel: only the flag and the panel's own call. */
    method OpenPanelLegacy(p: Panel)
      requires Valid()
      modifies this
      ensures Valid() && cubes == old(cubes)
      ensures Snapshot() == OpenPanelLegacySpec(old(Snapshot()), p)
    {
      events := events + [PanelOpened(p)];
      panelIsOpen := true;
    }

    /** The older ClosePanel: only the flag and the panel's own call. */
    method ClosePanelLegacy(p: Panel)
      requires Valid()
      modifies this
      ensures Valid() && cubes == old(cubes)
      ensures Snapshot() == ClosePanelLegacySpec(old(Snapshot()), p)
    {
      events := events + [PanelClosed(p)];
      closePanel := true;
    }
  }
}
