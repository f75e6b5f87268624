/**
 * Storage-root re-pathing for 3ds Max scenes.
 *
 * On save, every storage root whose configured path still holds environment
 * variables is written into the scene as a persistent MaxScript global
 * `SGTK_storage_lookup_<digest> = #("<raw>", "<expanded>")`. On open or merge,
 * those globals are read back into an `expanded -> raw` table, and every
 * asset whose path starts with a recorded expanded root is retargeted onto
 * that root as the current environment expands it.
 *
 * Environment expansion and the MD5 digest are parameters of the model.
 */
module EnvVarResolver {
  import opened Wrappers
  import opened PyBuiltins

  const PersistentVariableName := "SGTK_storage_lookup_"

  // ---------------------------------------------------------------------------
  // Save: which roots are recorded

  /** A storage root as configured (`raw`) and after environment expansion. */
  datatype RootPair = RootPair(raw: string, expanded: string)

  /**
   * Whether the save callback records a storage root, given the root's path
   * for the current OS (`None` when the storage has none).
   */
  predicate IsRecorded(localPath: Option<string>, expand: string -> string) {
    localPath.Some? && localPath.value != "" && expand(localPath.value) != localPath.value
  }

  /**
   * The `roots` list the save callback builds: exactly the roots with a
   * non-empty current-OS path whose expansion differs from it, each paired
   * with that expansion.
   */
  function RecordedRoots(localPaths: seq<Option<string>>, expand: string -> string): (roots: seq<RootPair>)
    ensures forall r :: r in roots ==>
      r.raw != "" && r.expanded == expand(r.raw) && r.raw != r.expanded && Some(r.raw) in localPaths
    ensures forall i :: 0 <= i < |localPaths| && IsRecorded(localPaths[i], expand) ==>
      RootPair(localPaths[i].value, expand(localPaths[i].value)) in roots
    decreases |localPaths|
  {
    if localPaths == [] then []
    else
      var init := localPaths[..|localPaths| - 1];
      var p := localPaths[|localPaths| - 1];
      assert forall i :: 0 <= i < |init| ==> init[i] == localPaths[i];
      var prev := RecordedRoots(init, expand);
      if IsRecorded(p, expand) then prev + [RootPair(p.value, expand(p.value))] else prev
  }

  // ---------------------------------------------------------------------------
  // Save: the MaxScript literal and variable name

  /** `s.replace("\\", "\\\\")`. */
  function EscapeBackslashes(s: string): string {
    if s == [] then ""
    else (if s[0] == '\\' then "\\\\" else [s[0]]) + EscapeBackslashes(s[1..])
  }

  lemma {:induction false} EscapeAppend(a: string, b: string)
    ensures EscapeBackslashes(a + b) == EscapeBackslashes(a) + EscapeBackslashes(b)
  {
    if a != [] {
      assert (a + b)[0] == a[0];
      assert (a + b)[1..] == a[1..] + b;
      EscapeAppend(a[1..], b);
      var chunk := if a[0] == '\\' then "\\\\" else [a[0]];
      assert EscapeBackslashes(a + b) == chunk + EscapeBackslashes(a[1..] + b);
      assert EscapeBackslashes(a) == chunk + EscapeBackslashes(a[1..]);
    } else {
      assert a + b == b;
    }
  }

  lemma {:induction false} EscapeWithoutBackslash(s: string)
    requires '\\' !in s
    ensures EscapeBackslashes(s) == s
  {
    if s != [] {
      assert '\\' !in s[1..] by {
        forall i | 0 <= i < |s[1..]| ensures s[1..][i] != '\\' { assert s[1..][i] == s[i + 1]; }
      }
      EscapeWithoutBackslash(s[1..]);
    }
  }

  /** `'#("{0}", "{1}")'.format(raw, expanded)` with every backslash doubled afterwards. */
  function PairLiteral(root: RootPair): string {
    EscapeBackslashes("#(\"" + root.raw + "\", \"" + root.expanded + "\")")
  }

  /**
   * The name of the persistent global for a root: the fixed prefix followed
   * by the digest of the root path.
   */
  function GenerateVariableName(rootPath: string, digest: string -> string): (name: string)
    ensures StartsWith(name, PersistentVariableName)
  {
    PersistentVariableName + digest(rootPath)
  }

  /** `persistent global <varName> = undefined` followed by `<varName> = <literal>`. */
  datatype Assignment = Assignment(varName: string, literal: string)

  function AssignmentFor(root: RootPair, digest: string -> string): Assignment {
    Assignment(GenerateVariableName(root.expanded, digest), PairLiteral(root))
  }

  /** The assignments executed for the recorded roots, one per root, in order. */
  function StoreScripts(roots: seq<RootPair>, digest: string -> string): (scripts: seq<Assignment>)
    ensures |scripts| == |roots|
    ensures forall i :: 0 <= i < |roots| ==> scripts[i] == AssignmentFor(roots[i], digest)
    decreases |roots|
  {
    if roots == [] then []
    else StoreScripts(roots[..|roots| - 1], digest) + [AssignmentFor(roots[|roots| - 1], digest)]
  }

  /**
   * The save callback (`filePreSave`): nothing without a running engine,
   * otherwise one assignment per recorded root, each to a global whose name
   * carries the lookup prefix.
   */
  method StoreEnvVarLookup(hasEngine: bool, localPaths: seq<Option<string>>,
                           expand: string -> string, digest: string -> string)
    returns (scripts: seq<Assignment>)
    ensures !hasEngine ==> scripts == []
    ensures hasEngine ==> scripts == StoreScripts(RecordedRoots(localPaths, expand), digest)
    ensures forall a :: a in scripts ==> StartsWith(a.varName, PersistentVariableName)
  {
    scripts := [];
    if !hasEngine {
      return;
    }
    var roots: seq<RootPair> := [];
    for i := 0 to |localPaths|
      invariant roots == RecordedRoots(localPaths[..i], expand)
    {
      assert localPaths[..i + 1][..i] == localPaths[..i];
      var localStoragePath := localPaths[i];
      if localStoragePath.None? || localStoragePath.value == "" {
        continue;
      }
      var expanded := expand(localStoragePath.value);
      if localStoragePath.value != expanded {
        roots := roots + [RootPair(localStoragePath.value, expanded)];
      }
    }
    assert localPaths[..|localPaths|] == localPaths;
    for i := 0 to |roots|
      invariant scripts == StoreScripts(roots[..i], digest)
    {
      assert roots[..i + 1][..i] == roots[..i];
      var varName := GenerateVariableName(roots[i].expanded, digest);
      scripts := scripts + [Assignment(varName, PairLiteral(roots[i]))];
    }
    assert roots[..|roots|] == roots;
  }

  // ---------------------------------------------------------------------------
  // How MaxScript reads the stored literal back

  /**
   * The body of a MaxScript string literal up to its closing quote, with
   * `\c` read as `c`: the decoded text and what follows the quote.
   */
  function ReadStringBody(s: string): Option<(string, string)>
    decreases |s|
  {
    if s == [] then None
    else if s[0] == '"' then Some(("", s[1..]))
    else if s[0] == '\\' then
      if |s| < 2 then None
      else match ReadStringBody(s[2..])
        case None => None
        case Some(r) => Some(([s[1]] + r.0, r.1))
    else match ReadStringBody(s[1..])
      case None => None
      case Some(r) => Some(([s[0]] + r.0, r.1))
  }

  /** The value of a `#("a", "b")` array literal, if the text is one. */
  function ReadPairLiteral(lit: string): Option<(string, string)> {
    if !StartsWith(lit, "#(\"") then None
    else match ReadStringBody(lit[3..])
      case None => None
      case Some(first) =>
        if !StartsWith(first.1, ", \"") then None
        else match ReadStringBody(first.1[3..])
          case None => None
          case Some(second) => if second.1 == ")" then Some((first.0, second.0)) else None
  }

  lemma {:induction false} ReadEscapedBody(body: string, tail: string)
    requires '"' !in body
    ensures ReadStringBody(EscapeBackslashes(body) + "\"" + tail) == Some((body, tail))
    decreases |body|
  {
    var s := EscapeBackslashes(body) + "\"" + tail;
    if body == [] {
      assert s == "\"" + tail;
    } else {
      assert '"' !in body[1..] by {
        forall i | 0 <= i < |body[1..]| ensures body[1..][i] != '"' { assert body[1..][i] == body[i + 1]; }
      }
      ReadEscapedBody(body[1..], tail);
      var rest := EscapeBackslashes(body[1..]) + "\"" + tail;
      if body[0] == '\\' {
        assert s == "\\\\" + rest;
        assert s[2..] == rest;
      } else {
        assert s == [body[0]] + rest;
        assert s[1..] == rest;
      }
      assert [body[0]] + body[1..] == body;
    }
  }

  lemma EscapeAround(p1: string, x: string, p2: string, y: string, p3: string)
    requires '\\' !in p1 && '\\' !in p2 && '\\' !in p3
    ensures EscapeBackslashes(p1 + x + p2 + y + p3)
         == p1 + EscapeBackslashes(x) + p2 + EscapeBackslashes(y) + p3
  {
    var a1 := p1 + x;
    var a2 := a1 + p2;
    var a3 := a2 + y;
    assert EscapeBackslashes(a1) == p1 + EscapeBackslashes(x) by {
      EscapeAppend(p1, x);
      EscapeWithoutBackslash(p1);
    }
    assert EscapeBackslashes(a2) == EscapeBackslashes(a1) + p2 by {
      EscapeAppend(a1, p2);
      EscapeWithoutBackslash(p2);
    }
    assert EscapeBackslashes(a3) == EscapeBackslashes(a2) + EscapeBackslashes(y) by {
      EscapeAppend(a2, y);
    }
    assert EscapeBackslashes(a3 + p3) == EscapeBackslashes(a3) + p3 by {
      EscapeAppend(a3, p3);
      EscapeWithoutBackslash(p3);
    }
  }

  /** Escaping the formatted literal only touches the two paths inside it. */
  lemma PairLiteralShape(root: RootPair)
    ensures PairLiteral(root) == "#(\"" + EscapeBackslashes(root.raw) + "\", \"" + EscapeBackslashes(root.expanded) + "\")"
  {
    EscapeAround("#(\"", root.raw, "\", \"", root.expanded, "\")");
  }

  lemma LiteralRegrouped(er: string, ee: string)
    ensures "#(\"" + er + "\", \"" + ee + "\")" == "#(\"" + (er + "\"" + (", \"" + ee + "\")"))
  {
    assert "\", \"" == "\"" + ", \"";
  }

  /** An array literal whose two string bodies read back reads back as their pair. */
  lemma ReadPairLiteralOf(body1: string, body2: string, a: string, b: string, tail1: string)
    requires ReadStringBody(body1) == Some((a, tail1))
    requires tail1 == ", \"" + body2
    requires ReadStringBody(body2) == Some((b, ")"))
    ensures ReadPairLiteral("#(\"" + body1) == Some((a, b))
  {
    var lit := "#(\"" + body1;
    assert StartsWith(lit, "#(\"") && lit[3..] == body1;
    assert StartsWith(tail1, ", \"") && tail1[3..] == body2;
  }

  /**
   * Reading the stored literal gives back the pair, `[raw, expanded]`, for
   * any paths without a double quote (the literal does not escape quotes).
   */
  lemma PairLiteralReadsBack(root: RootPair)
    requires '"' !in root.raw && '"' !in root.expanded
    ensures ReadPairLiteral(PairLiteral(root)) == Some((root.raw, root.expanded))
  {
    var er, ee := EscapeBackslashes(root.raw), EscapeBackslashes(root.expanded);
    var second := ", \"" + ee + "\")";
    var body2 := ee + "\"" + ")";
    assert PairLiteral(root) == "#(\"" + (er + "\"" + second) by {
      PairLiteralShape(root);
      LiteralRegrouped(er, ee);
    }
    assert second == ", \"" + body2;
    ReadEscapedBody(root.raw, second);
    ReadEscapedBody(root.expanded, ")");
    ReadPairLiteralOf(er + "\"" + second, body2, root.raw, root.expanded, second);
  }

  // ---------------------------------------------------------------------------
  // Open: reading the lookup back

  /** A MaxScript global's value as the Python side sees it. */
  datatype MxsValue = MxsArray(elems: seq<string>) | MxsUndefined

  /** Indexing a prefixed global that is not an array of two or more items raises. */
  datatype RetrieveError = NotAPair(varName: string)

  /** `expanded root -> raw root`, in dict order. */
  type Lookup = Dict<string, string>

  /**
   * `retrieve_storage_lookup` over the gathered globals, in order: every
   * global whose name carries the prefix contributes `val[1] -> val[0]`.
   */
  function LookupOf(globals: seq<(string, MxsValue)>): Result<Lookup, RetrieveError>
    decreases |globals|
  {
    if globals == [] then Success([])
    else
      var prev := LookupOf(globals[..|globals| - 1]);
      var name := globals[|globals| - 1].0;
      var val := globals[|globals| - 1].1;
      if prev.Failure? || !StartsWith(name, PersistentVariableName) then prev
      else if val.MxsArray? && |val.elems| >= 2 then Success(DictSet(prev.value, val.elems[1], val.elems[0]))
      else Failure(NotAPair(name))
  }

  /**
   * Independent statement of what the lookup holds for `k`: the raw path of
   * the LAST prefixed global whose expanded path is `k`.
   */
  function LastRawFor(globals: seq<(string, MxsValue)>, k: string): Option<string>
    decreases |globals|
  {
    if globals == [] then None
    else
      var name := globals[|globals| - 1].0;
      var val := globals[|globals| - 1].1;
      if StartsWith(name, PersistentVariableName) && val.MxsArray? && |val.elems| >= 2 && val.elems[1] == k
      then Some(val.elems[0])
      else LastRawFor(globals[..|globals| - 1], k)
  }

  /**
   * When the lookup is read successfully, its keys are distinct and each
   * key's value is the raw path of the last prefixed global with that
   * expanded path; globals without the prefix play no part.
   */
  lemma {:induction false} LookupLastWins(globals: seq<(string, MxsValue)>, k: string)
    requires LookupOf(globals).Success?
    ensures Distinct(Keys(LookupOf(globals).value))
    ensures DictGet(LookupOf(globals).value, k) == LastRawFor(globals, k)
    decreases |globals|
  {
    if globals != [] {
      var init := globals[..|globals| - 1];
      LookupLastWins(init, k);
      var name := globals[|globals| - 1].0;
      var val := globals[|globals| - 1].1;
      if StartsWith(name, PersistentVariableName) {
        DictSetGet(LookupOf(init).value, val.elems[1], val.elems[0], k);
        DictSetDistinct(LookupOf(init).value, val.elems[1], val.elems[0]);
      }
    }
  }

  lemma {:induction false} LookupFailureSticks(globals: seq<(string, MxsValue)>, i: nat)
    requires i <= |globals| && LookupOf(globals[..i]).Failure?
    ensures LookupOf(globals) == LookupOf(globals[..i])
    decreases |globals| - i
  {
    if i < |globals| {
      assert globals[..i + 1][..i] == globals[..i];
      LookupFailureSticks(globals, i + 1);
    } else {
      assert globals[..i] == globals;
    }
  }

  /** `retrieve_storage_lookup`: the loop over `rt.globalVars.gather()`. */
  method RetrieveStorageLookup(globals: seq<(string, MxsValue)>) returns (r: Result<Lookup, RetrieveError>)
    ensures r == LookupOf(globals)
  {
    var roots: Lookup := [];
    for i := 0 to |globals|
      invariant LookupOf(globals[..i]) == Success(roots)
    {
      assert globals[..i + 1][..i] == globals[..i];
      var variable := globals[i].0;
      var val := globals[i].1;
      if StartsWith(variable, PersistentVariableName) {
        if !(val.MxsArray? && |val.elems| >= 2) {
          LookupFailureSticks(globals, i + 1);
          return Failure(NotAPair(variable));
        }
        roots := DictSet(roots, val.elems[1], val.elems[0]);
      }
    }
    assert globals[..|globals|] == globals;
    return Success(roots);
  }

  // ---------------------------------------------------------------------------
  // Save then open

  /** The value MaxScript gives a global assigned from the literal. */
  function EvalLiteral(lit: string): MxsValue {
    match ReadPairLiteral(lit)
    case Some(p) => MxsArray([p.0, p.1])
    case None => MxsUndefined
  }

  /**
   * The globals a save that executed `scripts` adds to the scene, in
   * assignment order; the scene's earlier globals come before them.
   */
  function GlobalsAfter(scripts: seq<Assignment>): seq<(string, MxsValue)>
    decreases |scripts|
  {
    if scripts == [] then []
    else
      var last := scripts[|scripts| - 1];
      GlobalsAfter(scripts[..|scripts| - 1]) + [(last.varName, EvalLiteral(last.literal))]
  }

  /** `base` with each recorded pair written in as `expanded -> raw`, in order. */
  function LookupOfRoots(base: Lookup, roots: seq<RootPair>): Lookup
    decreases |roots|
  {
    if roots == [] then base
    else
      var last := roots[|roots| - 1];
      DictSet(LookupOfRoots(base, roots[..|roots| - 1]), last.expanded, last.raw)
  }

  /** A key no recorded root writes keeps its earlier value. */
  lemma {:induction false} LookupOfRootsKeeps(base: Lookup, roots: seq<RootPair>, k: string)
    requires forall j :: 0 <= j < |roots| ==> roots[j].expanded != k
    ensures DictGet(LookupOfRoots(base, roots), k) == DictGet(base, k)
    decreases |roots|
  {
    if roots != [] {
      var init := roots[..|roots| - 1];
      var last := roots[|roots| - 1];
      LookupOfRootsKeeps(base, init, k);
      DictSetGet(LookupOfRoots(base, init), last.expanded, last.raw, k);
    }
  }

  /** A recorded root's expanded path maps to the raw path of the last root written with it. */
  lemma {:induction false} LookupOfRootsLatest(base: Lookup, roots: seq<RootPair>, i: nat)
    requires i < |roots|
    requires forall j :: i < j < |roots| ==> roots[j].expanded != roots[i].expanded
    ensures DictGet(LookupOfRoots(base, roots), roots[i].expanded) == Some(roots[i].raw)
    decreases |roots|
  {
    var init := roots[..|roots| - 1];
    var last := roots[|roots| - 1];
    DictSetGet(LookupOfRoots(base, init), last.expanded, last.raw, roots[i].expanded);
    if i < |roots| - 1 {
      LookupOfRootsLatest(base, init, i);
    }
  }

  /**
   * Saving the recorded roots into a scene whose earlier globals `pre` read
   * back as a lookup, then reading all the scene's globals back, gives that
   * earlier lookup with every recorded pair written in as `expanded -> raw`:
   * the persisted names carry the prefix and the persisted literals read
   * back as `[raw, expanded]`. Lookup globals kept from earlier saves or
   * brought in by merges thus stay in the dict unless a new root replaces
   * their value; with no earlier globals it is the recorded pairs alone.
   */
  lemma {:induction false} StoreThenRetrieve(pre: seq<(string, MxsValue)>, roots: seq<RootPair>, digest: string -> string)
    requires LookupOf(pre).Success?
    requires forall r :: r in roots ==> '"' !in r.raw && '"' !in r.expanded
    ensures LookupOf(pre + GlobalsAfter(StoreScripts(roots, digest))) == Success(LookupOfRoots(LookupOf(pre).value, roots))
    decreases |roots|
  {
    if roots == [] {
      assert pre + GlobalsAfter(StoreScripts(roots, digest)) == pre;
    } else {
      var init := roots[..|roots| - 1];
      var last := roots[|roots| - 1];
      var before := pre + GlobalsAfter(StoreScripts(init, digest));
      var entry := (GenerateVariableName(last.expanded, digest), MxsArray([last.raw, last.expanded]));
      assert pre + GlobalsAfter(StoreScripts(roots, digest)) == before + [entry] by {
        AppendGlobal(init, last, digest);
      }
      StoreThenRetrieve(pre, init, digest);
      LookupOfAppend(before, entry.0, last.raw, last.expanded);
    }
  }

  /** One more saved root adds one global, the root's name bound to `[raw, expanded]`. */
  lemma AppendGlobal(init: seq<RootPair>, last: RootPair, digest: string -> string)
    requires '"' !in last.raw && '"' !in last.expanded
    ensures GlobalsAfter(StoreScripts(init + [last], digest))
         == GlobalsAfter(StoreScripts(init, digest)) + [(GenerateVariableName(last.expanded, digest), MxsArray([last.raw, last.expanded]))]
  {
    var roots := init + [last];
    assert roots[..|roots| - 1] == init;
    var scripts := StoreScripts(roots, digest);
    assert scripts[..|scripts| - 1] == StoreScripts(init, digest);
    PairLiteralReadsBack(last);
  }

  /** Reading one more prefixed pair global writes it into the lookup read so far. */
  lemma LookupOfAppend(globals: seq<(string, MxsValue)>, name: string, raw: string, expanded: string)
    requires LookupOf(globals).Success? && StartsWith(name, PersistentVariableName)
    ensures LookupOf(globals + [(name, MxsArray([raw, expanded]))])
         == Success(DictSet(LookupOf(globals).value, expanded, raw))
  {
    var all := globals + [(name, MxsArray([raw, expanded]))];
    assert all[..|all| - 1] == globals;
  }

  /** Into a scene without earlier lookup globals, the round trip gives the recorded pairs' dict. */
  lemma FreshSceneStoreThenRetrieve(roots: seq<RootPair>, digest: string -> string)
    requires forall r :: r in roots ==> '"' !in r.raw && '"' !in r.expanded
    ensures LookupOf(GlobalsAfter(StoreScripts(roots, digest))) == Success(LookupOfRoots([], roots))
  {
    StoreThenRetrieve([], roots, digest);
    assert [] + GlobalsAfter(StoreScripts(roots, digest)) == GlobalsAfter(StoreScripts(roots, digest));
  }

  // ---------------------------------------------------------------------------
  // Open: re-pathing one path

  predicate IsSep(c: char) {
    c == '\\' || c == '/'
  }

  /**
   * `os.path.relpath(current, prefix)` for a path that starts with `prefix`,
   * simplified to: drop the prefix and one leading separator.
   */
  function RelPath(current: string, prefix: string): string
    requires StartsWith(current, prefix)
  {
    var rest := current[|prefix|..];
    if rest != [] && IsSep(rest[0]) then rest[1..] else rest
  }

  /** What `ntpath.splitdrive` leaves of `a` after a drive letter such as `C:`. */
  function AfterDrive(a: string): string {
    if |a| >= 2 && a[1] == ':' then a[2..] else a
  }

  /**
   * `os.path.join(a, b)` on Windows for a relative `b` without a drive: a
   * backslash goes in only when what follows `a`'s drive is non-empty and
   * does not already end in a separator, so a bare drive `Q:` gives the
   * drive-relative `Q:b`.
   */
  function JoinPath(a: string, b: string): (r: string)
    ensures a == [] || IsSep(a[|a| - 1]) || (|a| == 2 && a[1] == ':') ==> r == a + b
    ensures !(a == [] || IsSep(a[|a| - 1]) || (|a| == 2 && a[1] == ':')) ==> r == a + "\\" + b
  {
    var tail := AfterDrive(a);
    if tail != [] && !IsSep(tail[|tail| - 1]) then a + "\\" + b else a + b
  }

  /** Re-pathing onto a root that now expands to a bare drive yields a drive-relative path. */
  lemma RepathOntoBareDrive(expandVars: string -> string)
    requires expandVars("$ROOT") == "Q:"
    ensures GetNewPath("P:\\proj\\a.png", [("P:\\proj", "$ROOT")], expandVars) == Some("Q:a.png")
  {
    var current, root := "P:\\proj\\a.png", "P:\\proj";
    assert current == root + "\\a.png";
    assert StartsWith(current, root);
    assert current[|root|..] == "\\a.png";
    assert RelPath(current, root) == "a.png";
    assert JoinPath("Q:", "a.png") == "Q:a.png";
  }

  /** `_get_new_path`: the first recorded expanded root that prefixes `current` decides. */
  function GetNewPath(current: string, lookup: Lookup, expandVars: string -> string): Option<string>
    decreases |lookup|
  {
    if lookup == [] then None
    else if StartsWith(current, lookup[0].0) then
      Some(JoinPath(expandVars(lookup[0].1), RelPath(current, lookup[0].0)))
    else GetNewPath(current, lookup[1..], expandVars)
  }

  /**
   * `_get_new_path` is `None` exactly when no recorded expanded root is a
   * plain string prefix of `current`; otherwise the FIRST such entry, in dict
   * order, decides, and the result is its raw root, expanded now, joined with
   * the rest of `current`.
   */
  lemma {:induction false} GetNewPathFirstMatch(current: string, lookup: Lookup, expandVars: string -> string)
    ensures GetNewPath(current, lookup, expandVars).None? <==>
      forall i :: 0 <= i < |lookup| ==> !StartsWith(current, lookup[i].0)
    ensures GetNewPath(current, lookup, expandVars).Some? ==>
      exists i :: 0 <= i < |lookup| && StartsWith(current, lookup[i].0)
        && (forall j :: 0 <= j < i ==> !StartsWith(current, lookup[j].0))
        && GetNewPath(current, lookup, expandVars).value == JoinPath(expandVars(lookup[i].1), RelPath(current, lookup[i].0))
    decreases |lookup|
  {
    if lookup != [] && !StartsWith(current, lookup[0].0) {
      var tail := lookup[1..];
      GetNewPathFirstMatch(current, tail, expandVars);
      assert forall i :: 1 <= i < |lookup| ==> tail[i - 1] == lookup[i];
      if GetNewPath(current, tail, expandVars).Some? {
        var i :| 0 <= i < |tail| && StartsWith(current, tail[i].0)
          && (forall j :: 0 <= j < i ==> !StartsWith(current, tail[j].0))
          && GetNewPath(current, tail, expandVars).value == JoinPath(expandVars(tail[i].1), RelPath(current, tail[i].0));
        assert forall j :: 1 <= j < i + 1 ==> !StartsWith(current, lookup[j].0) by {
          forall j | 1 <= j < i + 1 ensures !StartsWith(current, lookup[j].0) { assert tail[j - 1] == lookup[j]; }
        }
        assert lookup[i + 1] == tail[i];
      }
    }
  }

  // ---------------------------------------------------------------------------
  // Open: re-pathing the scene's assets

  /**
   * `rt.AssetManager` as the re-pathing loop uses it: the file names of the
   * scene's assets, addressed from 1.
   */
  class AssetManager {
    var filenames: seq<string>

    constructor (filenames: seq<string>)
      ensures this.filenames == filenames
    {
      this.filenames := filenames;
    }

    function GetNumAssets(): nat
      reads this
    {
      |filenames|
    }

    /** `GetAssetByIndex(index).getfilename()`; indices run from 1. */
    function GetAssetFilename(index: nat): string
      reads this
      requires 1 <= index <= |filenames|
    {
      filenames[index - 1]
    }

    /** `atsops.RetargetAssets(rootScene, from, to)`: every asset on `from` moves to `to`. */
    method RetargetAssets(from: string, to: string)
      modifies this
      ensures filenames == Retargeted(old(filenames), from, to)
    {
      filenames := Retargeted(filenames, from, to);
    }
  }

  function Retargeted(files: seq<string>, from: string, to: string): seq<string> {
    seq(|files|, i requires 0 <= i < |files| => if files[i] == from then to else files[i])
  }

  /** What one iteration of the asset loop does to the file names, at 0-based `i`. */
  function ResolveStep(files: seq<string>, lookup: Lookup, expandVars: string -> string, i: nat): seq<string>
    requires i < |files|
  {
    var newPath := GetNewPath(files[i], lookup, expandVars);
    if newPath.Some? && newPath.value != files[i] then Retargeted(files, files[i], newPath.value) else files
  }

  /** The file names after the asset loop has visited the first `n` assets. */
  function ResolveUpTo(files: seq<string>, lookup: Lookup, expandVars: string -> string, n: nat): (r: seq<string>)
    requires n <= |files|
    ensures |r| == |files|
  {
    if n == 0 then files
    else ResolveStep(ResolveUpTo(files, lookup, expandVars, n - 1), lookup, expandVars, n - 1)
  }

  /** A path the lookup leaves where it is. */
  predicate Settled(path: string, lookup: Lookup, expandVars: string -> string) {
    var newPath := GetNewPath(path, lookup, expandVars);
    newPath.None? || newPath.value == path
  }

  /** If no asset needs re-pathing, the loop retargets nothing. */
  lemma {:induction false} SettledAssetsUnchanged(files: seq<string>, lookup: Lookup, expandVars: string -> string, n: nat)
    requires n <= |files|
    requires forall k :: 0 <= k < |files| ==> Settled(files[k], lookup, expandVars)
    ensures ResolveUpTo(files, lookup, expandVars, n) == files
  {
    if n > 0 {
      SettledAssetsUnchanged(files, lookup, expandVars, n - 1);
    }
  }

  /** With an empty lookup the loop changes nothing, so the early return loses nothing. */
  lemma EmptyLookupUnchanged(files: seq<string>, expandVars: string -> string)
    ensures ResolveUpTo(files, [], expandVars, |files|) == files
  {
    SettledAssetsUnchanged(files, [], expandVars, |files|);
  }

  /**
   * If every re-pathed path is itself settled (as when the roots now expand
   * somewhere the old expanded roots are not a prefix of), then after the
   * loop has visited an asset it stays settled, whatever later retargets do.
   */
  lemma {:induction false} VisitedAssetsSettled(files: seq<string>, lookup: Lookup, expandVars: string -> string, n: nat)
    requires n <= |files|
    requires forall p :: !Settled(p, lookup, expandVars) ==>
      Settled(GetNewPath(p, lookup, expandVars).value, lookup, expandVars)
    ensures forall k :: 0 <= k < n ==> Settled(ResolveUpTo(files, lookup, expandVars, n)[k], lookup, expandVars)
  {
    if n > 0 {
      VisitedAssetsSettled(files, lookup, expandVars, n - 1);
      var prev := ResolveUpTo(files, lookup, expandVars, n - 1);
      var next := ResolveUpTo(files, lookup, expandVars, n);
      assert next == ResolveStep(prev, lookup, expandVars, n - 1);
      forall k | 0 <= k < n ensures Settled(next[k], lookup, expandVars) {
        if k < n - 1 && !Settled(prev[n - 1], lookup, expandVars) {
          assert prev[k] != prev[n - 1];
        }
      }
    }
  }

  /** Where the lookup sends a path: its new path, or the path itself when it has none. */
  function Repathed(path: string, lookup: Lookup, expandVars: string -> string): string {
    GetNewPath(path, lookup, expandVars).GetOr(path)
  }

  lemma RepathedSettled(path: string, lookup: Lookup, expandVars: string -> string)
    requires forall p :: !Settled(p, lookup, expandVars) ==>
      Settled(GetNewPath(p, lookup, expandVars).value, lookup, expandVars)
    ensures Settled(Repathed(path, lookup, expandVars), lookup, expandVars)
  {
  }

  /**
   * Under the same condition, every asset the loop has visited ends on its
   * new path (its recorded root as that root expands now, joined with the
   * rest of the path), or where it was when no root prefixes it; an asset
   * not yet visited is either where it was or already on its new path.
   */
  lemma {:induction false} ResolvedAssets(files: seq<string>, lookup: Lookup, expandVars: string -> string, n: nat)
    requires n <= |files|
    requires forall p :: !Settled(p, lookup, expandVars) ==>
      Settled(GetNewPath(p, lookup, expandVars).value, lookup, expandVars)
    ensures forall k :: 0 <= k < |files| ==>
      ResolveUpTo(files, lookup, expandVars, n)[k] in {files[k], Repathed(files[k], lookup, expandVars)}
    ensures forall k :: 0 <= k < n ==>
      ResolveUpTo(files, lookup, expandVars, n)[k] == Repathed(files[k], lookup, expandVars)
  {
    if n > 0 {
      ResolvedAssets(files, lookup, expandVars, n - 1);
      var prev := ResolveUpTo(files, lookup, expandVars, n - 1);
      var next := ResolveUpTo(files, lookup, expandVars, n);
      assert next == ResolveStep(prev, lookup, expandVars, n - 1);
      var p := prev[n - 1];
      if !Settled(p, lookup, expandVars) {
        RepathedSettled(files[n - 1], lookup, expandVars);
        assert p == files[n - 1];
        assert next == Retargeted(prev, p, Repathed(p, lookup, expandVars));
        forall k | 0 <= k < |files|
          ensures next[k] in {files[k], Repathed(files[k], lookup, expandVars)}
          ensures k < n ==> next[k] == Repathed(files[k], lookup, expandVars)
        {
          RepathedSettled(files[k], lookup, expandVars);
          if prev[k] == p {
            assert prev[k] == files[k];
          }
        }
      } else {
        assert next == prev;
      }
    }
  }

  /**
   * `update_and_resolve_paths` over the asset manager: read the lookup
   * (propagating its error), stop if it is empty, otherwise visit assets
   * 1..N, retargeting an asset only when its new path exists and differs.
   */
  method UpdateAndResolvePaths(am: AssetManager, globals: seq<(string, MxsValue)>, expandVars: string -> string)
    returns (r: Result<(), RetrieveError>)
    modifies am
    ensures LookupOf(globals).Failure? ==>
      r == Failure(LookupOf(globals).error) && am.filenames == old(am.filenames)
    ensures LookupOf(globals).Success? ==>
      r == Success(()) && am.filenames == ResolveUpTo(old(am.filenames), LookupOf(globals).value, expandVars, |old(am.filenames)|)
  {
    var storageRootLookup := RetrieveStorageLookup(globals);
    if storageRootLookup.Failure? {
      return Failure(storageRootLookup.error);
    }
    var lookup := storageRootLookup.value;
    if lookup == [] {
      EmptyLookupUnchanged(am.filenames, expandVars);
      return Success(());
    }
    RepathAssets(am, lookup, expandVars);
    return Success(());
  }

  /**
   * The asset loop of `update_and_resolve_paths`: visit assets 1..N in
   * order, retargeting an asset only when its new path exists and differs.
   */
  method RepathAssets(am: AssetManager, lookup: Lookup, expandVars: string -> string)
    modifies am
    ensures am.filenames == ResolveUpTo(old(am.filenames), lookup, expandVars, |old(am.filenames)|)
  {
    var n := am.GetNumAssets();
    for i := 0 to n
      invariant am.filenames == ResolveUpTo(old(am.filenames), lookup, expandVars, i)
    {
      var aFile := am.GetAssetFilename(i + 1);
      var newPath := GetNewPath(aFile, lookup, expandVars);
      if newPath.Some? && newPath.value != aFile {
        am.RetargetAssets(aFile, newPath.value);
        // the "failed to repath!" branch of `update_and_resolve_paths` cannot fire under this host model
        assert am.GetAssetFilename(i + 1) == newPath.value;
      }
    }
  }
}
