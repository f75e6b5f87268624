/**
 * The popup menus of the blur-based engine (`tk_3dsmax`).
 *
 * Pressing the work-area button or the apps button of the Max menu bar opens
 * a 200 by 300 popup just above the button. The generator remembers at most
 * one open popup of each kind and closes both before opening a new one, so
 * at most one popup is ever open. The work-area popup lists the two jump
 * actions and the context-menu commands; the apps popup lists the commands
 * of the default type.
 */
module MaxMenu {
  import opened Commands

  const PopupWidth := 200
  const PopupHeight := 300
  const JumpToShotgun := "Jump to Shotgun"
  const JumpToFileSystem := "Jump to File System"

  /**
   * Where a popup for a button centred at (cx, cy) is moved to: it is
   * centred on the button horizontally and its bottom edge lies 10 pixels
   * below the button's centre.
   */
  function PopupOrigin(cx: int, cy: int): (origin: (int, int))
    ensures origin.0 + PopupWidth / 2 == cx
    ensures origin.1 + PopupHeight == cy + 10
  {
    (cx - PopupWidth / 2, cy - PopupHeight + 10)
  }

  /** The names of the commands among the first `n` whose type is `t`, in order. */
  function NamesOfType(cmds: seq<Command>, t: string, n: nat): seq<string>
    requires n <= |cmds|
  {
    if n == 0 then []
    else
      NamesOfType(cmds, t, n - 1)
      + (if TypeOf(cmds[n - 1].properties) == t then [cmds[n - 1].name] else [])
  }

  /** What the work-area popup lists. */
  function WorkAreaItems(cmds: seq<Command>): seq<string> {
    [JumpToShotgun, JumpToFileSystem] + NamesOfType(cmds, ContextMenuType, |cmds|)
  }

  /** What the apps popup lists. */
  function AppItems(cmds: seq<Command>): seq<string> {
    NamesOfType(cmds, DefaultType, |cmds|)
  }

  /** A name is listed for type `t` exactly when a command of that name has type `t`. */
  lemma {:induction false} NamesOfTypeExact(cmds: seq<Command>, t: string, n: nat, name: string)
    requires n <= |cmds|
    ensures name in NamesOfType(cmds, t, n) <==>
      exists k :: 0 <= k < n && cmds[k].name == name && TypeOf(cmds[k].properties) == t
  {
    if n > 0 {
      NamesOfTypeExact(cmds, t, n - 1, name);
    }
  }

  /** `engine.commands` is a dictionary: its names are distinct. */
  predicate DistinctNames(cmds: seq<Command>) {
    forall i, j :: 0 <= i < j < |cmds| ==> cmds[i].name != cmds[j].name
  }

  /**
   * No command is listed in both popups: the apps popup takes only the
   * default type and the work-area popup only the context-menu type.
   */
  lemma PopupsDisjoint(cmds: seq<Command>, name: string)
    requires DistinctNames(cmds)
    ensures !(name in NamesOfType(cmds, ContextMenuType, |cmds|) && name in AppItems(cmds))
  {
    NamesOfTypeExact(cmds, ContextMenuType, |cmds|, name);
    NamesOfTypeExact(cmds, DefaultType, |cmds|, name);
    if name in NamesOfType(cmds, ContextMenuType, |cmds|) {
      var i :| 0 <= i < |cmds| && cmds[i].name == name && TypeOf(cmds[i].properties) == ContextMenuType;
      forall j | 0 <= j < |cmds| && cmds[j].name == name
        ensures TypeOf(cmds[j].properties) != DefaultType
      {
        assert j == i;
        assert ContextMenuType[0] != DefaultType[0];
      }
    }
  }

  /** A popup dialog launched through blurdev (`WorkAreaMenu` or `AppsMenu`). */
  class Popup {
    var x: int
    var y: int
    var width: int
    var height: int
    var workAreaText: string
    /** The names of the items added, in order (their callbacks are not modelled). */
    var items: seq<string>
    /** Whether `accept()` has closed the dialog. */
    var accepted: bool

    constructor Launch()
      ensures items == [] && workAreaText == "" && !accepted
    {
      x, y, width, height := 0, 0, 0, 0;
      workAreaText := "";
      items := [];
      accepted := false;
    }

    method Move(x: int, y: int)
      modifies this
      ensures this.x == x && this.y == y
      ensures width == old(width) && height == old(height) && workAreaText == old(workAreaText)
      ensures items == old(items) && accepted == old(accepted)
    {
      this.x, this.y := x, y;
    }

    method Resize(width: int, height: int)
      modifies this
      ensures this.width == width && this.height == height
      ensures x == old(x) && y == old(y) && workAreaText == old(workAreaText)
      ensures items == old(items) && accepted == old(accepted)
    {
      this.width, this.height := width, height;
    }

    method SetWorkAreaText(text: string)
      modifies this
      ensures workAreaText == text
      ensures x == old(x) && y == old(y) && width == old(width) && height == old(height)
      ensures items == old(items) && accepted == old(accepted)
    {
      workAreaText := text;
    }

    method AddItem(name: string)
      modifies this
      ensures items == old(items) + [name]
      ensures x == old(x) && y == old(y) && width == old(width) && height == old(height)
      ensures workAreaText == old(workAreaText) && accepted == old(accepted)
    {
      items := items + [name];
    }

    method Accept()
      modifies this
      ensures accepted
      ensures x == old(x) && y == old(y) && width == old(width) && height == old(height)
      ensures workAreaText == old(workAreaText) && items == old(items)
    {
      accepted := true;
    }
  }

  /** `MenuGenerator` of the blur engine: the two current popups, `None` as `null`. */
  class MenuGenerator {
    var workAreaMenu: Popup?
    var appMenu: Popup?

    /** The popups the generator currently holds. */
    ghost function Menus(): set<Popup>
      reads this
    {
      (if workAreaMenu != null then {workAreaMenu} else {}) + (if appMenu != null then {appMenu} else {})
    }

    constructor ()
      ensures workAreaMenu == null && appMenu == null
    {
      workAreaMenu := null;
      appMenu := null;
    }

    /**
     * `_close_existing_menus`: accepts each popup that is held, and only
     * those, then forgets both.
     */
    method CloseExistingMenus()
      modifies this, Menus()
      ensures workAreaMenu == null && appMenu == null
      ensures forall p :: p in old(Menus()) ==> p.accepted && p.items == old(p.items)
    {
      if workAreaMenu != null {
        workAreaMenu.Accept();
        workAreaMenu := null;
      }
      if appMenu != null {
        appMenu.Accept();
        appMenu := null;
      }
    }

    /**
     * `render_work_area_menu`: closes what is open, then opens a fresh
     * work-area popup above the button, showing the context name, the two
     * jump actions and every context-menu command.
     */
    method RenderWorkAreaMenu(cx: int, cy: int, ctxName: string, commands: seq<Command>)
      modifies this, Menus()
      ensures forall p :: p in old(Menus()) ==> p.accepted
      ensures appMenu == null && workAreaMenu != null && fresh(workAreaMenu)
      ensures (workAreaMenu.x, workAreaMenu.y) == PopupOrigin(cx, cy)
      ensures workAreaMenu.width == PopupWidth && workAreaMenu.height == PopupHeight
      ensures workAreaMenu.workAreaText == ctxName
      ensures workAreaMenu.items == WorkAreaItems(commands)
      ensures !workAreaMenu.accepted
    {
      CloseExistingMenus();
      var origin := PopupOrigin(cx, cy);
      var menu := new Popup.Launch();
      workAreaMenu := menu;
      menu.Move(origin.0, origin.1);
      menu.Resize(PopupWidth, PopupHeight);
      menu.SetWorkAreaText(ctxName);
      menu.AddItem(JumpToShotgun);
      menu.AddItem(JumpToFileSystem);
      for k := 0 to |commands|
        modifies menu
        invariant menu.items == [JumpToShotgun, JumpToFileSystem] + NamesOfType(commands, ContextMenuType, k)
        invariant (menu.x, menu.y) == origin && menu.width == PopupWidth && menu.height == PopupHeight
        invariant menu.workAreaText == ctxName && !menu.accepted
      {
        if TypeOf(commands[k].properties) == ContextMenuType {
          menu.AddItem(commands[k].name);
        }
      }
    }

    /**
     * `render_apps_menu`: closes what is open, then opens a fresh apps
     * popup above the button listing every command of the default type.
     */
    method RenderAppsMenu(cx: int, cy: int, commands: seq<Command>)
      modifies this, Menus()
      ensures forall p :: p in old(Menus()) ==> p.accepted
      ensures workAreaMenu == null && appMenu != null && fresh(appMenu)
      ensures (appMenu.x, appMenu.y) == PopupOrigin(cx, cy)
      ensures appMenu.width == PopupWidth && appMenu.height == PopupHeight
      ensures appMenu.items == AppItems(commands)
      ensures !appMenu.accepted
    {
      CloseExistingMenus();
      var origin := PopupOrigin(cx, cy);
      var menu := new Popup.Launch();
      appMenu := menu;
      menu.Move(origin.0, origin.1);
      menu.Resize(PopupWidth, PopupHeight);
      for k := 0 to |commands|
        modifies menu
        invariant menu.items == NamesOfType(commands, DefaultType, k)
        invariant (menu.x, menu.y) == origin && menu.width == PopupWidth && menu.height == PopupHeight
        invariant !menu.accepted
      {
        if TypeOf(commands[k].properties) == DefaultType {
          menu.AddItem(commands[k].name);
        }
      }
    }
  }
}
