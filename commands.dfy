/**
 * The engine's registered commands, as both menu generators see them:
 * `engine.commands` maps a command name to its property bag (and a
 * callback, which no menu logic inspects and which is not modelled).
 */
module Commands {
  import opened Wrappers

  /**
   * An app instance object. `id` stands for Python object identity, which is
   * what `app_instance_obj == app_instance` compares; `displayName` is the
   * app's `display_name`.
   */
  datatype App = App(id: nat, displayName: string)

  /**
   * The keys of a command's property bag that the menu code reads: `"app"`
   * and `"type"`, each possibly absent.
   */
  datatype Properties = Properties(app: Option<App>, cmdType: Option<string>)

  /** One item of `engine.commands.items()`. */
  datatype Command = Command(name: string, properties: Properties)

  const DefaultType := "default"
  const ContextMenuType := "context_menu"

  /** `properties.get("type", "default")`. */
  function TypeOf(p: Properties): (t: string)
    ensures p.cmdType.None? ==> t == DefaultType
    ensures p.cmdType.Some? ==> t == p.cmdType.value
  {
    p.cmdType.GetOr(DefaultType)
  }
}
