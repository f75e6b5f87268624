/**
 * The blur-based 3ds Max engine (`engine.py`): the version gate run at
 * start-up and the two MaxScript callbacks of the menu bar. A callback is
 * given the menu bar's position printed as `[left,top]`, turns it into the
 * centre of the pressed button and opens the matching popup there.
 */
module Engine {
  import opened Wrappers
  import opened PyBuiltins
  import opened Commands
  import MaxMenu

  /** `mxs.maxVersion()[0]` of 3ds Max 2012, the only release the engine runs in. */
  const SupportedMaxVersion := 14000

  datatype EngineError = UnsupportedVersion(majorVersion: int)

  /** `init_engine`: fails exactly when Max's major version is not 2012's. */
  function InitEngine(majorVersion: int): (r: Result<(), EngineError>)
    ensures r.Success? <==> majorVersion == SupportedMaxVersion
    ensures r.Failure? ==> r.error.majorVersion == majorVersion
  {
    if majorVersion != SupportedMaxVersion then Failure(UnsupportedVersion(majorVersion)) else Success(())
  }

  /** Why a position string could not be read: the two `ValueError`s of the callbacks. */
  datatype PositionError =
    | WrongFieldCount(count: nat)   // `left_str, top_str = ...` unpacks the wrong number of fields
    | NotAnInteger(field: string)   // `int(...)` rejects a field

  /**
   * `pos_str[1:-1].split(",")` followed by `int` of each field, the left one
   * first.
   */
  function ParsePosition(pos: string): (r: Result<(int, int), PositionError>)
    ensures Count(DropEnds(pos), ',') != 1 ==> r == Failure(WrongFieldCount(Count(DropEnds(pos), ',') + 1))
    ensures r.Failure? && r.error.WrongFieldCount? ==> Count(DropEnds(pos), ',') != 1
    ensures r.Failure? && r.error.NotAnInteger? ==> ParseInt(r.error.field).None? && ',' !in r.error.field
  {
    var fields := Split(DropEnds(pos), ',');
    if |fields| != 2 then Failure(WrongFieldCount(|fields|))
    else
      match ParseInt(fields[0])
      case None => Failure(NotAnInteger(fields[0]))
      case Some(left) =>
        match ParseInt(fields[1])
        case None => Failure(NotAnInteger(fields[1]))
        case Some(top) => Success((left, top))
  }

  /** The text MaxScript prints for a `Point2` of integers: `[left,top]`. */
  function FormatPosition(left: int, top: int): string {
    "[" + IntToString(left) + "," + IntToString(top) + "]"
  }

  lemma NoCommaInIntToString(i: int)
    ensures ',' !in IntToString(i)
  {
  }

  /** Reading a printed position gives back its two coordinates. */
  lemma PositionRoundTrip(left: int, top: int)
    ensures ParsePosition(FormatPosition(left, top)) == Success((left, top))
  {
    var a := IntToString(left);
    var b := IntToString(top);
    var pos := FormatPosition(left, top);
    assert DropEnds(pos) == a + [','] + b by {
      assert pos == "[" + (a + [','] + b) + "]";
    }
    NoCommaInIntToString(left);
    NoCommaInIntToString(top);
    SplitTwoFields(a, b, ',');
    ParseIntOfIntToString(left);
    ParseIntOfIntToString(top);
  }

  /**
   * A position that reads successfully is two integer fields joined by one
   * comma inside the dropped brackets.
   */
  lemma ParsedPositionShape(pos: string)
    requires ParsePosition(pos).Success?
    ensures exists a, b ::
              && DropEnds(pos) == a + [','] + b && ',' !in a && ',' !in b
              && ParseInt(a) == Some(ParsePosition(pos).value.0) && ParseInt(b) == Some(ParsePosition(pos).value.1)
  {
    var fields := Split(DropEnds(pos), ',');
    assert JoinWith(fields, ',') == fields[0] + [','] + fields[1];
  }

  /**
   * Conversely, two comma-free fields that both read as integers, joined by
   * one comma inside the dropped brackets, parse to their two values,
   * whatever blanks, signs or leading zeros they carry.
   */
  lemma ParsePositionComplete(pos: string, a: string, b: string, x: int, y: int)
    requires DropEnds(pos) == a + [','] + b && ',' !in a && ',' !in b
    requires ParseInt(a) == Some(x) && ParseInt(b) == Some(y)
    ensures ParsePosition(pos) == Success((x, y))
  {
    SplitTwoFields(a, b, ',');
  }

  /** The work-area button's centre lies 165 pixels right of and 28 below the menu bar's corner. */
  const WorkAreaButtonOffset := (165, 28)
  /** The apps button's centre lies 285 pixels right of and 28 below the menu bar's corner. */
  const AppsButtonOffset := (285, 28)

  /** `MaxEngine`: the engine state the callbacks read, and the blur menu generator. */
  class MaxEngine {
    /** `engine.commands`, in iteration order. */
    var commands: seq<Command>
    /** `str(engine.context)`. */
    var contextName: string
    const menuGenerator: MaxMenu.MenuGenerator

    constructor (commands: seq<Command>, contextName: string)
      ensures this.commands == commands && this.contextName == contextName
      ensures fresh(menuGenerator) && menuGenerator.workAreaMenu == null && menuGenerator.appMenu == null
    {
      this.commands := commands;
      this.contextName := contextName;
      menuGenerator := new MaxMenu.MenuGenerator();
    }

    /**
     * `max_callback_work_area_menu`: an unreadable position raises before
     * anything changes; otherwise the work-area popup opens with its origin
     * at (left + 65, top - 262).
     */
    method MaxCallbackWorkAreaMenu(pos: string) returns (r: Result<(), PositionError>)
      modifies menuGenerator, menuGenerator.Menus()
      ensures r.Failure? <==> ParsePosition(pos).Failure?
      ensures r.Failure? ==> r.error == ParsePosition(pos).error
      ensures r.Failure? ==> unchanged(menuGenerator) && unchanged(old(menuGenerator.Menus()))
      ensures r.Success? ==>
        var (left, top) := ParsePosition(pos).value;
        var menu := menuGenerator.workAreaMenu;
        menuGenerator.appMenu == null && menu != null && fresh(menu)
        && (menu.x, menu.y) == (left + 65, top - 262)
        && menu.width == MaxMenu.PopupWidth && menu.height == MaxMenu.PopupHeight
        && menu.workAreaText == contextName
        && menu.items == MaxMenu.WorkAreaItems(commands)
      ensures r.Success? ==> forall p :: p in old(menuGenerator.Menus()) ==> p.accepted
    {
      var parsed := ParsePosition(pos);
      if parsed.Failure? {
        return Failure(parsed.error);
      }
      var (left, top) := parsed.value;
      var buttonCenterFromLeft := left + WorkAreaButtonOffset.0;
      var buttonCenterFromTop := top + WorkAreaButtonOffset.1;
      menuGenerator.RenderWorkAreaMenu(buttonCenterFromLeft, buttonCenterFromTop, contextName, commands);
      r := Success(());
    }

    /**
     * `max_callback_apps_menu`: an unreadable position raises before
     * anything changes; otherwise the apps popup opens with its origin at
     * (left + 185, top - 262).
     */
    method MaxCallbackAppsMenu(pos: string) returns (r: Result<(), PositionError>)
      modifies menuGenerator, menuGenerator.Menus()
      ensures r.Failure? <==> ParsePosition(pos).Failure?
      ensures r.Failure? ==> r.error == ParsePosition(pos).error
      ensures r.Failure? ==> unchanged(menuGenerator) && unchanged(old(menuGenerator.Menus()))
      ensures r.Success? ==>
        var (left, top) := ParsePosition(pos).value;
        var menu := menuGenerator.appMenu;
        menuGenerator.workAreaMenu == null && menu != null && fresh(menu)
        && (menu.x, menu.y) == (left + 185, top - 262)
        && menu.width == MaxMenu.PopupWidth && menu.height == MaxMenu.PopupHeight
        && menu.items == MaxMenu.AppItems(commands)
      ensures r.Success? ==> forall p :: p in old(menuGenerator.Menus()) ==> p.accepted
    {
      var parsed := ParsePosition(pos);
      if parsed.Failure? {
        return Failure(parsed.error);
      }
      var (left, top) := parsed.value;
      var buttonCenterFromLeft := left + AppsButtonOffset.0;
      var buttonCenterFromTop := top + AppsButtonOffset.1;
      menuGenerator.RenderAppsMenu(buttonCenterFromLeft, buttonCenterFromTop, commands);
      r := Success(());
    }
  }
}
