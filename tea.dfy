/** The messages and commands of the terminal UI runtime, as far as the
    modelled code inspects them, and key bindings. */
module Tea {
  import opened Wrappers
  import opened Cfbd

  /** A message delivered to a component: a key press (by its key name), one of
      the two navigation messages of the prototype, or anything else. */
  datatype Msg =
    | KeyMsg(key: string)
    | NavigateToTeamMsg(team: Team)
    | NavigateToTeamsMsg(conference: Option<string>)
    | OtherMsg(name: string)

  /** A command returned to the runtime. `NoCmd` is Go's nil command,
      `QuitCmd` the runtime's quit, `DestroyCmd` the router library's destroy;
      `LibraryCmd` stands for a command produced inside a widget. */
  datatype Cmd =
    | NoCmd
    | QuitCmd
    | DestroyCmd
    | Batch(cmds: seq<Cmd>)
    | LibraryCmd(tag: string)

  /** A key binding: the set of key names it matches. */
  datatype Binding = Binding(keys: set<string>)

  /** The bindings the team screen consults. */
  datatype KeyMap = KeyMap(quit: Binding, select: Binding, back: Binding)

  predicate Matches(msg: Msg, b: Binding)
  {
    msg.KeyMsg? && msg.key in b.keys
  }
}
