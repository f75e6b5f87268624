/**
 * The "Shotgun" menu of the MaxPlus engine (`tk_3dsmaxplus`).
 *
 * The menu is a context submenu (two jump items, a separator, then every
 * context-menu command), a separator, the favourites in settings order, a
 * separator, and one section per app in sorted order: a submenu when the app
 * has several commands, a plain item when it has one that is not already a
 * favourite. The MaxPlus builders become the list of entries they are given.
 */
module MaxPlusMenu {
  import opened Wrappers
  import opened Commands
  import opened PyBuiltins

  /** What a MaxPlus menu builder is given: an action item, a separator or a built submenu. */
  datatype Entry = Item(caption: string) | Separator | SubMenu(title: string, entries: seq<Entry>)

  /** A `MaxPlus.MenuBuilder` that has not been created yet. */
  datatype Builder = Builder(title: string, entries: seq<Entry>)

  const MenuTitle := "Shotgun"
  const JumpToShotgun := "Jump to Shotgun"
  const JumpToFileSystem := "Jump to File System"
  const OtherItems := "Other Items"

  // ---------------------------------------------------------------------------
  // The context submenu

  /** A Shotgun entity dictionary (a step or a task); an empty one is falsy. */
  datatype Link = Link(fields: map<string, string>)

  datatype Entity = Entity(entityType: string, name: string)

  /** The engine's context: project name, and optional entity, step and task. */
  datatype Context = Context(projectName: string, entity: Option<Entity>, step: Option<Link>, task: Option<Link>)

  predicate Truthy(link: Option<Link>) {
    link.Some? && link.value.fields != map[]
  }

  /** `link.get("name")`. */
  function LinkName(link: Link): Option<string> {
    if "name" in link.fields then Some(link.fields["name"]) else None
  }

  /** `"%s" % value`, where `None` prints as `None`. */
  function Format(value: Option<string>): string {
    if value.Some? then value.value else "None"
  }

  function EntityLabel(e: Entity): string {
    e.entityType + " " + e.name
  }

  /** `task_step`: the task's name if there is a task, else the step's name. */
  function TaskStep(ctx: Context): Option<string> {
    if Truthy(ctx.task) then LinkName(ctx.task.value)
    else if Truthy(ctx.step) then LinkName(ctx.step.value)
    else None
  }

  /**
   * The context submenu's title: the project name without an entity,
   * `"type name"` for an entity alone, otherwise `"X, type name"` where X is
   * the task's name when there is a task and the step's name otherwise.
   */
  function ContextLabel(ctx: Context): (caption: string)
    ensures ctx.entity.None? ==> caption == ctx.projectName
    ensures ctx.entity.Some? ==> EndsWith(caption, EntityLabel(ctx.entity.value))
    ensures ctx.entity.Some? && ctx.step.None? && ctx.task.None? ==> caption == EntityLabel(ctx.entity.value)
    ensures ctx.entity.Some? && Truthy(ctx.task) ==>
      caption == Format(LinkName(ctx.task.value)) + ", " + EntityLabel(ctx.entity.value)
    ensures ctx.entity.Some? && (ctx.step.Some? || ctx.task.Some?) && !Truthy(ctx.task) && Truthy(ctx.step) ==>
      caption == Format(LinkName(ctx.step.value)) + ", " + EntityLabel(ctx.entity.value)
  {
    if ctx.entity.None? then ctx.projectName
    else if ctx.step.None? && ctx.task.None? then EntityLabel(ctx.entity.value)
    else Format(TaskStep(ctx)) + ", " + EntityLabel(ctx.entity.value)
  }

  /**
   * `_create_context_builder`: a builder titled by the context holding the
   * two jump actions and a separator.
   */
  function CreateContextBuilder(ctx: Context): (b: Builder)
    ensures b.title == ContextLabel(ctx)
    ensures b.entries == [Item(JumpToShotgun), Item(JumpToFileSystem), Separator]
  {
    Builder(ContextLabel(ctx), [Item(JumpToShotgun), Item(JumpToFileSystem), Separator])
  }

  // ---------------------------------------------------------------------------
  // AppCommand

  /**
   * The first instance name, in `engine.apps` order, whose app object is
   * `app`.
   */
  function FindInstanceName(apps: seq<(string, App)>, app: App): Option<string> {
    if apps == [] then None
    else if apps[0].1 == app then Some(apps[0].0)
    else FindInstanceName(apps[1..], app)
  }

  lemma {:induction false} FindInstanceNameFirst(apps: seq<(string, App)>, app: App)
    ensures FindInstanceName(apps, app).None? <==> forall i :: 0 <= i < |apps| ==> apps[i].1 != app
    ensures FindInstanceName(apps, app).Some? ==>
      exists i :: 0 <= i < |apps| && apps[i] == (FindInstanceName(apps, app).value, app)
        && forall j :: 0 <= j < i ==> apps[j].1 != app
  {
    if apps != [] && apps[0].1 != app {
      var tail := apps[1..];
      FindInstanceNameFirst(tail, app);
      assert forall i :: 1 <= i < |apps| ==> apps[i] == tail[i - 1];
      if FindInstanceName(tail, app).Some? {
        var i :| 0 <= i < |tail| && tail[i] == (FindInstanceName(tail, app).value, app)
          && forall j :: 0 <= j < i ==> tail[j].1 != app;
        assert apps[i + 1] == tail[i];
        assert forall j :: 0 <= j < i + 1 ==> apps[j].1 != app by {
          forall j | 0 <= j < i + 1 ensures apps[j].1 != app {
            if j > 0 { assert apps[j] == tail[j - 1]; }
          }
        }
      }
    }
  }

  /** `get_app_instance_name` on a command's property bag. */
  function InstanceName(p: Properties, apps: seq<(string, App)>): Option<string> {
    if p.app.None? then None else FindInstanceName(apps, p.app.value)
  }

  /** `get_app_name`, or "Other Items" when it is `None`: the command's group. */
  function AppKey(c: Command): string {
    if c.properties.app.Some? then c.properties.app.value.displayName else OtherItems
  }

  /** A command from `engine.commands` wrapped for the menu; `favourite` is set in place. */
  class AppCommand {
    const name: string
    const properties: Properties
    var favourite: bool

    constructor (name: string, properties: Properties)
      ensures this.name == name && this.properties == properties && !favourite
    {
      this.name := name;
      this.properties := properties;
      favourite := false;
    }

    /** The app's display name when the command belongs to an app, else `None`. */
    function GetAppName(): (r: Option<string>)
      ensures r.Some? <==> properties.app.Some?
      ensures r.Some? ==> r.value == properties.app.value.displayName
    {
      if properties.app.Some? then Some(properties.app.value.displayName) else None
    }

    /**
     * The first name in `apps` whose app object is this command's app;
     * `None` without an app or without such a name.
     */
    function GetAppInstanceName(apps: seq<(string, App)>): (r: Option<string>)
      ensures properties.app.None? ==> r.None?
      ensures r.Some? ==> exists i :: 0 <= i < |apps| && apps[i] == (r.value, properties.app.value)
      ensures properties.app.Some? && r.None? ==> forall i :: 0 <= i < |apps| ==> apps[i].1 != properties.app.value
    {
      if properties.app.None? then None
      else
        FindInstanceNameFirst(apps, properties.app.value);
        FindInstanceName(apps, properties.app.value)
    }

    /** The `type` property, `"default"` when absent. */
    function GetType(): (t: string)
      ensures properties.cmdType.None? ==> t == DefaultType
      ensures properties.cmdType.Some? ==> t == properties.cmdType.value
    {
      TypeOf(properties)
    }
  }

  // ---------------------------------------------------------------------------
  // Specification of the menu

  const JumpEntries: seq<Entry> := [Item(JumpToShotgun), Item(JumpToFileSystem), Separator]

  /** Items for the context-menu commands among the first `n`, in order. */
  function ContextItems(cmds: seq<Command>, n: nat): seq<Entry>
    requires n <= |cmds|
  {
    if n == 0 then []
    else
      ContextItems(cmds, n - 1)
      + (if TypeOf(cmds[n - 1].properties) == ContextMenuType then [Item(cmds[n - 1].name)] else [])
  }

  datatype Favourite = Favourite(appInstance: string, name: string)

  predicate Matches(c: Command, fav: Favourite, apps: seq<(string, App)>) {
    InstanceName(c.properties, apps) == Some(fav.appInstance) && c.name == fav.name
  }

  /** Whether one of the first `m` favourites matches the command. */
  predicate IsFavourite(c: Command, favs: seq<Favourite>, apps: seq<(string, App)>, m: nat)
    requires m <= |favs|
  {
    m > 0 && (IsFavourite(c, favs, apps, m - 1) || Matches(c, favs[m - 1], apps))
  }

  /** Items for the commands among the first `n` that match `fav`, in order. */
  function MatchingItems(cmds: seq<Command>, fav: Favourite, apps: seq<(string, App)>, n: nat): seq<Entry>
    requires n <= |cmds|
  {
    if n == 0 then []
    else
      MatchingItems(cmds, fav, apps, n - 1)
      + (if Matches(cmds[n - 1], fav, apps) then [Item(cmds[n - 1].name)] else [])
  }

  /** The favourites section for the first `m` favourites. */
  function FavouriteItems(cmds: seq<Command>, favs: seq<Favourite>, apps: seq<(string, App)>, m: nat): seq<Entry>
    requires m <= |favs|
  {
    if m == 0 then []
    else FavouriteItems(cmds, favs, apps, m - 1) + MatchingItems(cmds, favs[m - 1], apps, |cmds|)
  }

  /** `commands_by_app`: group name to the positions of its commands in `cmd_items`. */
  type Groups = Dict<string, seq<nat>>

  predicate AllBelow(idxs: seq<nat>, n: nat) {
    forall j :: 0 <= j < |idxs| ==> idxs[j] < n
  }

  /** Every group is non-empty and refers to commands below `n`. */
  ghost predicate GroupsWellFormed(groups: Groups, n: nat) {
    forall key :: DictGet(groups, key).Some? ==> DictGet(groups, key).value != [] && AllBelow(DictGet(groups, key).value, n)
  }

  /** Append command `k` to the group `key`, creating the group if needed. */
  function GroupInto(groups: Groups, key: string, k: nat): Groups {
    DictSet(groups, key, DictGet(groups, key).GetOr([]) + [k])
  }

  lemma GroupIntoWellFormed(groups: Groups, key: string, k: nat)
    requires GroupsWellFormed(groups, k)
    ensures GroupsWellFormed(GroupInto(groups, key, k), k + 1)
  {
    var g := GroupInto(groups, key, k);
    forall key' | DictGet(g, key').Some?
      ensures DictGet(g, key').value != [] && AllBelow(DictGet(g, key').value, k + 1)
    {
      DictSetGet(groups, key, DictGet(groups, key).GetOr([]) + [k], key');
    }
  }

  /** The grouping of the non-context commands among the first `n` by app. */
  function GroupPrefix(cmds: seq<Command>, n: nat): (groups: Groups)
    requires n <= |cmds|
    ensures GroupsWellFormed(groups, n)
  {
    if n == 0 then []
    else
      var prev := GroupPrefix(cmds, n - 1);
      if TypeOf(cmds[n - 1].properties) == ContextMenuType then
        prev
      else
        GroupIntoWellFormed(prev, AppKey(cmds[n - 1]), n - 1);
        GroupInto(prev, AppKey(cmds[n - 1]), n - 1)
  }

  function ItemsAt(cmds: seq<Command>, idxs: seq<nat>): seq<Entry>
    requires AllBelow(idxs, |cmds|)
  {
    seq(|idxs|, j requires 0 <= j < |idxs| => Item(cmds[idxs[j]].name))
  }

  /** What `_add_app_menu` emits for one group. */
  function GroupEntries(cmds: seq<Command>, flags: seq<bool>, key: string, idxs: seq<nat>): seq<Entry>
    requires |flags| == |cmds| && AllBelow(idxs, |cmds|)
  {
    if |idxs| > 1 then [SubMenu(key, ItemsAt(cmds, idxs))]
    else if |idxs| == 1 && !flags[idxs[0]] then [Item(cmds[idxs[0]].name)]
    else []
  }

  /** The app sections for the first `n` of `keys`. */
  function AppSection(cmds: seq<Command>, flags: seq<bool>, groups: Groups, keys: seq<string>, n: nat): seq<Entry>
    requires n <= |keys| && |flags| == |cmds| && GroupsWellFormed(groups, |cmds|)
  {
    if n == 0 then []
    else
      AppSection(cmds, flags, groups, keys, n - 1)
      + GroupEntries(cmds, flags, keys[n - 1], DictGet(groups, keys[n - 1]).GetOr([]))
  }

  function Flags(cmds: seq<Command>, favs: seq<Favourite>, apps: seq<(string, App)>): (flags: seq<bool>)
    ensures |flags| == |cmds|
  {
    seq(|cmds|, k requires 0 <= k < |cmds| => IsFavourite(cmds[k], favs, apps, |favs|))
  }

  /** The entries of the "Shotgun" menu that `create_menu` builds. */
  function MenuLayout(cmds: seq<Command>, favs: seq<Favourite>, ctx: Context, apps: seq<(string, App)>): seq<Entry> {
    var groups := GroupPrefix(cmds, |cmds|);
    var keys := SortStrings(Keys(groups));
    [SubMenu(ContextLabel(ctx), JumpEntries + ContextItems(cmds, |cmds|)), Separator]
      + FavouriteItems(cmds, favs, apps, |favs|)
      + [Separator]
      + AppSection(cmds, Flags(cmds, favs, apps), groups, keys, |keys|)
  }

  // ---------------------------------------------------------------------------
  // Properties of the specification

  lemma {:induction false} ContextItemsExact(cmds: seq<Command>, n: nat, e: Entry)
    requires n <= |cmds|
    ensures e in ContextItems(cmds, n) <==>
      exists k :: 0 <= k < n && TypeOf(cmds[k].properties) == ContextMenuType && e == Item(cmds[k].name)
  {
    if n > 0 {
      ContextItemsExact(cmds, n - 1, e);
    }
  }

  /** A command is a favourite exactly when some favourite matches it on instance and name. */
  lemma {:induction false} IsFavouriteAny(c: Command, favs: seq<Favourite>, apps: seq<(string, App)>, m: nat)
    requires m <= |favs|
    ensures IsFavourite(c, favs, apps, m) <==> exists i :: 0 <= i < m && Matches(c, favs[i], apps)
  {
    if m > 0 {
      IsFavouriteAny(c, favs, apps, m - 1);
    }
  }

  lemma {:induction false} MatchingItemsExact(cmds: seq<Command>, fav: Favourite, apps: seq<(string, App)>, n: nat, e: Entry)
    requires n <= |cmds|
    ensures e in MatchingItems(cmds, fav, apps, n) <==>
      exists k :: 0 <= k < n && Matches(cmds[k], fav, apps) && e == Item(cmds[k].name)
  {
    if n > 0 {
      MatchingItemsExact(cmds, fav, apps, n - 1, e);
    }
  }

  /**
   * The favourites section holds an item for every command that matches a
   * favourite, and nothing else.
   */
  lemma {:induction false} FavouriteItemsExact(cmds: seq<Command>, favs: seq<Favourite>, apps: seq<(string, App)>, m: nat, e: Entry)
    requires m <= |favs|
    ensures e in FavouriteItems(cmds, favs, apps, m) <==>
      exists i, k :: 0 <= i < m && 0 <= k < |cmds| && Matches(cmds[k], favs[i], apps) && e == Item(cmds[k].name)
  {
    if e in FavouriteItems(cmds, favs, apps, m) {
      var i, k := FavouriteItemsSound(cmds, favs, apps, m, e);
    }
    if exists i, k :: 0 <= i < m && 0 <= k < |cmds| && Matches(cmds[k], favs[i], apps) && e == Item(cmds[k].name) {
      var i, k :| 0 <= i < m && 0 <= k < |cmds| && Matches(cmds[k], favs[i], apps) && e == Item(cmds[k].name);
      FavouriteItemsComplete(cmds, favs, apps, m, i, k);
    }
  }

  /** Which favourite, and which command, an item of the favourites section comes from. */
  lemma {:induction false} FavouriteItemsSound(cmds: seq<Command>, favs: seq<Favourite>, apps: seq<(string, App)>, m: nat, e: Entry)
    returns (i: nat, k: nat)
    requires m <= |favs| && e in FavouriteItems(cmds, favs, apps, m)
    ensures i < m && k < |cmds| && Matches(cmds[k], favs[i], apps) && e == Item(cmds[k].name)
  {
    var last: nat := m - 1;
    var prev := FavouriteItems(cmds, favs, apps, last);
    var tail := MatchingItems(cmds, favs[last], apps, |cmds|);
    assert FavouriteItems(cmds, favs, apps, m) == prev + tail;
    if e in tail {
      i := last;
      k := MatchingItemsSound(cmds, favs[last], apps, |cmds|, e);
    } else {
      i, k := FavouriteItemsSound(cmds, favs, apps, last, e);
    }
  }

  /** Which command an item of one favourite's matches comes from. */
  lemma {:induction false} MatchingItemsSound(cmds: seq<Command>, fav: Favourite, apps: seq<(string, App)>, n: nat, e: Entry)
    returns (k: nat)
    requires n <= |cmds| && e in MatchingItems(cmds, fav, apps, n)
    ensures k < n && Matches(cmds[k], fav, apps) && e == Item(cmds[k].name)
  {
    var prev := MatchingItems(cmds, fav, apps, n - 1);
    if e in prev {
      k := MatchingItemsSound(cmds, fav, apps, n - 1, e);
    } else {
      k := n - 1;
    }
  }

  lemma {:induction false} FavouriteItemsComplete(cmds: seq<Command>, favs: seq<Favourite>, apps: seq<(string, App)>, m: nat, i: nat, k: nat)
    requires m <= |favs| && i < m && k < |cmds| && Matches(cmds[k], favs[i], apps)
    ensures Item(cmds[k].name) in FavouriteItems(cmds, favs, apps, m)
  {
    var prev := FavouriteItems(cmds, favs, apps, m - 1);
    var tail := MatchingItems(cmds, favs[m - 1], apps, |cmds|);
    assert FavouriteItems(cmds, favs, apps, m) == prev + tail;
    if i == m - 1 {
      MatchingItemsExact(cmds, favs[m - 1], apps, |cmds|, Item(cmds[k].name));
    } else {
      FavouriteItemsComplete(cmds, favs, apps, m - 1, i, k);
    }
  }

  predicate MemberOf(cmds: seq<Command>, key: string, k: nat) {
    k < |cmds| && TypeOf(cmds[k].properties) != ContextMenuType && AppKey(cmds[k]) == key
  }

  predicate Increasing(idxs: seq<nat>) {
    forall i, j :: 0 <= i < j < |idxs| ==> idxs[i] < idxs[j]
  }

  /**
   * The grouping is a partition of the non-context commands: group names are
   * distinct, every group lists, in command order, only non-context commands
   * whose app name (or "Other Items") is the group's name, and every
   * non-context command is in the group of that name.
   */
  lemma {:induction false} GroupByAppPartition(cmds: seq<Command>, n: nat)
    requires n <= |cmds|
    ensures Distinct(Keys(GroupPrefix(cmds, n)))
    ensures forall key :: DictGet(GroupPrefix(cmds, n), key).Some? ==>
      Increasing(DictGet(GroupPrefix(cmds, n), key).value)
      && forall j :: 0 <= j < |DictGet(GroupPrefix(cmds, n), key).value| ==>
           MemberOf(cmds, key, DictGet(GroupPrefix(cmds, n), key).value[j])
    ensures forall k :: 0 <= k < n && TypeOf(cmds[k].properties) != ContextMenuType ==>
      DictGet(GroupPrefix(cmds, n), AppKey(cmds[k])).Some?
      && k in DictGet(GroupPrefix(cmds, n), AppKey(cmds[k])).value
  {
    if n > 0 {
      GroupByAppPartition(cmds, n - 1);
      var prev := GroupPrefix(cmds, n - 1);
      if TypeOf(cmds[n - 1].properties) != ContextMenuType {
        var key0 := AppKey(cmds[n - 1]);
        var last: nat := n - 1;
        var v0: seq<nat> := DictGet(prev, key0).GetOr([]) + [last];
        var g := GroupPrefix(cmds, n);
        assert g == DictSet(prev, key0, v0);
        DictSetDistinct(prev, key0, v0);
        forall key | DictGet(g, key).Some?
          ensures Increasing(DictGet(g, key).value)
          ensures forall j :: 0 <= j < |DictGet(g, key).value| ==> MemberOf(cmds, key, DictGet(g, key).value[j])
        {
          DictSetGet(prev, key0, v0, key);
          if key == key0 {
            var old0 := DictGet(prev, key0).GetOr([]);
            assert AllBelow(old0, n - 1);
          }
        }
        forall k | 0 <= k < n && TypeOf(cmds[k].properties) != ContextMenuType
          ensures DictGet(g, AppKey(cmds[k])).Some? && k in DictGet(g, AppKey(cmds[k])).value
        {
          DictSetGet(prev, key0, v0, AppKey(cmds[k]));
          if k < n - 1 && AppKey(cmds[k]) == key0 {
            assert k in DictGet(prev, key0).value;
          }
        }
      }
    }
  }

  /** Every name in the app section's key order appears there exactly as often as in the dict. */
  lemma SortedKeysAreKeys(groups: Groups)
    ensures IsSorted(SortStrings(Keys(groups)))
    ensures forall key :: key in SortStrings(Keys(groups)) <==> key in Keys(groups)
    ensures multiset(SortStrings(Keys(groups))) == multiset(Keys(groups))
  {
    SortStringsCorrect(Keys(groups));
    forall key ensures key in SortStrings(Keys(groups)) <==> key in Keys(groups) {
      assert key in SortStrings(Keys(groups)) <==> key in multiset(SortStrings(Keys(groups)));
      assert key in Keys(groups) <==> key in multiset(Keys(groups));
    }
  }

  lemma {:induction false} AppSectionHolds(cmds: seq<Command>, flags: seq<bool>, groups: Groups, keys: seq<string>, n: nat, p: nat)
    requires n <= |keys| && |flags| == |cmds| && GroupsWellFormed(groups, |cmds|)
    requires p < n
    ensures forall e :: e in GroupEntries(cmds, flags, keys[p], DictGet(groups, keys[p]).GetOr([])) ==>
      e in AppSection(cmds, flags, groups, keys, n)
  {
    if p < n - 1 {
      AppSectionHolds(cmds, flags, groups, keys, n - 1, p);
    }
  }

  /** A caption shown in a list of entries, directly or one submenu down. */
  predicate Shows(entries: seq<Entry>, caption: string) {
    Item(caption) in entries || exists e :: e in entries && e.SubMenu? && Item(caption) in e.entries
  }

  /**
   * No command is lost: every command's name is shown in the menu, in the
   * context submenu, among the favourites, or in its app's section.
   */
  lemma CommandShown(cmds: seq<Command>, favs: seq<Favourite>, ctx: Context, apps: seq<(string, App)>, k: nat)
    requires k < |cmds|
    ensures Shows(MenuLayout(cmds, favs, ctx, apps), cmds[k].name)
  {
    var layout := MenuLayout(cmds, favs, ctx, apps);
    var caption := cmds[k].name;
    var groups := GroupPrefix(cmds, |cmds|);
    var keys := SortStrings(Keys(groups));
    var flags := Flags(cmds, favs, apps);
    var section := AppSection(cmds, flags, groups, keys, |keys|);
    if TypeOf(cmds[k].properties) == ContextMenuType {
      ContextItemsExact(cmds, |cmds|, Item(caption));
      assert layout[0] == SubMenu(ContextLabel(ctx), JumpEntries + ContextItems(cmds, |cmds|));
      assert Item(caption) in layout[0].entries;
    } else if flags[k] {
      IsFavouriteAny(cmds[k], favs, apps, |favs|);
      FavouriteItemsExact(cmds, favs, apps, |favs|, Item(caption));
      assert Item(caption) in layout;
    } else {
      GroupByAppPartition(cmds, |cmds|);
      var key := AppKey(cmds[k]);
      var idxs := DictGet(groups, key).value;
      DictGetPresent(groups, key);
      SortedKeysAreKeys(groups);
      var p :| 0 <= p < |keys| && keys[p] == key;
      AppSectionHolds(cmds, flags, groups, keys, |keys|, p);
      var entries := GroupEntries(cmds, flags, key, idxs);
      assert forall e :: e in entries ==> e in layout;
      if |idxs| > 1 {
        var j :| 0 <= j < |idxs| && idxs[j] == k;
        assert ItemsAt(cmds, idxs)[j] == Item(caption);
        assert SubMenu(key, ItemsAt(cmds, idxs)) in layout;
      } else {
        assert idxs == [k];
        assert Item(caption) in layout;
      }
    }
  }

  // ---------------------------------------------------------------------------
  // The generator

  /**
   * The grouping part of `create_menu`: each non-context command goes, in
   * command order, into the group named by its app ("Other Items" without
   * one), a group being created the first time its name is met.
   */
  method GroupByApp(cmdItems: seq<AppCommand>, ghost commands: seq<Command>) returns (commandsByApp: Groups)
    requires |cmdItems| == |commands|
    requires forall k :: 0 <= k < |commands| ==> cmdItems[k].properties == commands[k].properties
    ensures commandsByApp == GroupPrefix(commands, |commands|)
  {
    commandsByApp := [];
    for k := 0 to |cmdItems|
      invariant commandsByApp == GroupPrefix(commands, k)
    {
      var cmd := cmdItems[k];
      ghost var prev := commandsByApp;
      if cmd.GetType() != ContextMenuType {
        var appName := cmd.GetAppName();
        var key := if appName.None? then OtherItems else appName.value;
        assert key == AppKey(commands[k]);
        DictGetPresent(prev, key);
        var idx: nat := k;
        ghost var added := key !in Keys(commandsByApp);
        if key !in Keys(commandsByApp) {
          commandsByApp := DictSet(commandsByApp, key, []);
          DictSetGet(prev, key, [], key);
        }
        var grown: seq<nat> := DictGet(commandsByApp, key).value + [idx];
        assert grown == DictGet(prev, key).GetOr([]) + [idx];
        if added {
          DictSetTwice(prev, key, [], grown);
        }
        commandsByApp := DictSet(commandsByApp, key, grown);
      }
    }
  }

  /** `MenuGenerator`: the builder of the "Shotgun" menu and the created menu. */
  class MenuGenerator {
    /** The entries given to `self._menu_builder` so far. */
    var menuBuilder: seq<Entry>
    /** `self._menu_handle`: the created "Shotgun" menu. */
    var menuHandle: Option<Entry>

    constructor ()
      ensures menuBuilder == [] && menuHandle == None
    {
      menuBuilder := [];
      menuHandle := None;
    }

    /**
     * `_add_app_menu`: the groups in sorted name order; a submenu for a group
     * of several commands, the command itself for a group of one unless it
     * is a favourite.
     */
    method AddAppMenu(cmdItems: seq<AppCommand>, commandsByApp: Groups,
                      ghost cmds: seq<Command>, ghost flags: seq<bool>)
      requires |cmdItems| == |cmds| == |flags|
      requires forall k :: 0 <= k < |cmds| ==> cmdItems[k].name == cmds[k].name && cmdItems[k].favourite == flags[k]
      requires GroupsWellFormed(commandsByApp, |cmds|)
      modifies this
      ensures menuHandle == old(menuHandle)
      ensures menuBuilder == old(menuBuilder)
        + AppSection(cmds, flags, commandsByApp, SortStrings(Keys(commandsByApp)), |SortStrings(Keys(commandsByApp))|)
    {
      var keys := SortStrings(Keys(commandsByApp));
      SortedKeysAreKeys(commandsByApp);
      for i := 0 to |keys|
        invariant menuBuilder == old(menuBuilder) + AppSection(cmds, flags, commandsByApp, keys, i)
        invariant menuHandle == old(menuHandle)
      {
        var appName := keys[i];
        DictGetPresent(commandsByApp, appName);
        var group := DictGet(commandsByApp, appName).value;
        AddGroup(cmdItems, appName, group, cmds, flags);
      }
    }

    /** One group of `_add_app_menu`: what `GroupEntries` says it emits. */
    method AddGroup(cmdItems: seq<AppCommand>, appName: string, group: seq<nat>,
                    ghost cmds: seq<Command>, ghost flags: seq<bool>)
      requires |cmdItems| == |cmds| == |flags|
      requires forall k :: 0 <= k < |cmds| ==> cmdItems[k].name == cmds[k].name && cmdItems[k].favourite == flags[k]
      requires group != [] && AllBelow(group, |cmds|)
      modifies this
      ensures menuHandle == old(menuHandle)
      ensures menuBuilder == old(menuBuilder) + GroupEntries(cmds, flags, appName, group)
    {
      if |group| > 1 {
        var builder := SubmenuItems(cmdItems, group, cmds);
        menuBuilder := menuBuilder + [SubMenu(appName, builder)];
      } else {
        var cmdObj := cmdItems[group[0]];
        if !cmdObj.favourite {
          menuBuilder := menuBuilder + [Item(cmdObj.name)];
        }
      }
    }

    /** The items of a group's submenu: one per command of the group, in group order. */
    static method SubmenuItems(cmdItems: seq<AppCommand>, group: seq<nat>, ghost cmds: seq<Command>)
      returns (builder: seq<Entry>)
      requires |cmdItems| == |cmds|
      requires forall k :: 0 <= k < |cmds| ==> cmdItems[k].name == cmds[k].name
      requires AllBelow(group, |cmds|)
      ensures builder == ItemsAt(cmds, group)
    {
      builder := [];
      for j := 0 to |group|
        invariant |builder| == j
        invariant forall t :: 0 <= t < j ==> builder[t] == Item(cmds[group[t]].name)
      {
        builder := builder + [Item(cmdItems[group[j]].name)];
      }
    }

    /**
     * The favourites part of `create_menu`: for each favourite in settings
     * order, every command whose app instance name and name match it is added
     * to the menu and marked as a favourite.
     */
    method AddFavourites(cmdItems: seq<AppCommand>, favourites: seq<Favourite>, apps: seq<(string, App)>,
                         ghost commands: seq<Command>)
      requires |cmdItems| == |commands|
      requires forall k :: 0 <= k < |commands| ==>
        cmdItems[k].name == commands[k].name && cmdItems[k].properties == commands[k].properties && !cmdItems[k].favourite
      requires forall j, k :: 0 <= j < k < |cmdItems| ==> cmdItems[j] != cmdItems[k]
      modifies this, set k | 0 <= k < |cmdItems| :: cmdItems[k]
      ensures menuHandle == old(menuHandle)
      ensures menuBuilder == old(menuBuilder) + FavouriteItems(commands, favourites, apps, |favourites|)
      ensures forall k :: 0 <= k < |commands| ==>
        cmdItems[k].favourite == IsFavourite(commands[k], favourites, apps, |favourites|)
    {
      for f := 0 to |favourites|
        invariant menuHandle == old(menuHandle)
        invariant menuBuilder == old(menuBuilder) + FavouriteItems(commands, favourites, apps, f)
        invariant forall k :: 0 <= k < |cmdItems| ==> cmdItems[k].favourite == IsFavourite(commands[k], favourites, apps, f)
      {
        var fav := favourites[f];
        for k := 0 to |cmdItems|
          invariant menuHandle == old(menuHandle)
          invariant menuBuilder == old(menuBuilder) + FavouriteItems(commands, favourites, apps, f) + MatchingItems(commands, fav, apps, k)
          invariant forall j :: 0 <= j < |cmdItems| ==>
            cmdItems[j].favourite == (IsFavourite(commands[j], favourites, apps, f) || (j < k && Matches(commands[j], fav, apps)))
        {
          var cmd := cmdItems[k];
          if cmd.GetAppInstanceName(apps) == Some(fav.appInstance) && cmd.name == fav.name {
            menuBuilder := menuBuilder + [Item(cmd.name)];
            cmd.favourite := true;
          }
        }
      }
    }

    /**
     * `create_menu`: wraps every command, builds the context submenu, adds
     * and marks the favourites, groups the other commands by app and adds
     * the app sections; the created menu is the "Shotgun" menu of exactly
     * those entries.
     */
    method CreateMenu(commands: seq<Command>, favourites: seq<Favourite>, ctx: Context, apps: seq<(string, App)>)
      modifies this
      ensures menuBuilder == MenuLayout(commands, favourites, ctx, apps)
      ensures menuHandle == Some(SubMenu(MenuTitle, menuBuilder))
    {
      var cmdItems: seq<AppCommand> := [];
      for i := 0 to |commands|
        invariant |cmdItems| == i
        invariant forall k :: 0 <= k < i ==> fresh(cmdItems[k]) && !cmdItems[k].favourite
        invariant forall k :: 0 <= k < i ==> cmdItems[k].name == commands[k].name && cmdItems[k].properties == commands[k].properties
        invariant forall j, k :: 0 <= j < k < i ==> cmdItems[j] != cmdItems[k]
      {
        var cmd := new AppCommand(commands[i].name, commands[i].properties);
        cmdItems := cmdItems + [cmd];
      }

      menuBuilder := [];

      // the context menu
      var ctxBuilder := CreateContextBuilder(ctx);
      for i := 0 to |cmdItems|
        invariant ctxBuilder == Builder(ContextLabel(ctx), JumpEntries + ContextItems(commands, i))
      {
        if cmdItems[i].GetType() == ContextMenuType {
          ctxBuilder := ctxBuilder.(entries := ctxBuilder.entries + [Item(cmdItems[i].name)]);
        }
      }
      menuBuilder := menuBuilder + [SubMenu(ctxBuilder.title, ctxBuilder.entries)];
      menuBuilder := menuBuilder + [Separator];
      ghost var head := menuBuilder;
      assert head == [SubMenu(ContextLabel(ctx), JumpEntries + ContextItems(commands, |commands|)), Separator];

      // the favourites
      AddFavourites(cmdItems, favourites, apps, commands);
      menuBuilder := menuBuilder + [Separator];
      ghost var flags := Flags(commands, favourites, apps);
      assert forall k :: 0 <= k < |commands| ==> cmdItems[k].favourite == flags[k];
      ghost var favPart := menuBuilder;
      assert favPart == head + FavouriteItems(commands, favourites, apps, |favourites|) + [Separator];

      // group the remaining commands by app
      var commandsByApp := GroupByApp(cmdItems, commands);
      AddAppMenu(cmdItems, commandsByApp, commands, flags);
      assert menuBuilder == favPart
        + AppSection(commands, flags, commandsByApp, SortStrings(Keys(commandsByApp)), |SortStrings(Keys(commandsByApp))|);
      menuHandle := Some(SubMenu(MenuTitle, menuBuilder));
    }
  }
}
