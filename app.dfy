/** The application shell: it owns the selection (the chosen team and game),
    registers the two route factories with the router, ends the program on a
    quit key before the router sees it, and otherwise delegates to the router. */
module App {
  import opened Wrappers
  import opened Cfbd
  import opened Tea

  /** The conference the "default" route always lists. */
  const DefaultConference := "SEC"

  /** Which of the two factories a route key is registered with. */
  datatype Route = TeamsRoute | TeamRoute

  /** What a factory builds: the screen variant and the props it was handed.
      Props are a snapshot taken when the factory runs. */
  datatype Screen =
    | Unmounted
    | TeamsScreen(conference: Option<string>)
    | TeamScreen(team: Team)

  /** The hosted screens' own behaviour, which the shell never inspects: the
      command a screen's initialisation returns, how it answers a message,
      and what it renders. */
  datatype ScreenHost = ScreenHost(
    init: Screen -> Cmd,
    update: (Screen, Msg) -> Cmd,
    view: (Screen, int, int) -> string)

  /** The route table built by `Init`: exactly the keys "default" and "team". */
  function RouteTable(): (t: map<string, Route>)
    ensures t.Keys == {"default", "team"}
    ensures t["default"] == TeamsRoute && t["team"] == TeamRoute
  {
    map["default" := TeamsRoute, "team" := TeamRoute]
  }

  predicate IsQuitKey(msg: Msg)
  {
    msg.KeyMsg? && (msg.key == "q" || msg.key == "ctrl+c" || msg.key == "esc")
  }

  /** The screen a factory of the given kind builds. */
  predicate BuiltBy(route: Route, screen: Screen)
  {
    match route
    case TeamsRoute => screen.TeamsScreen?
    case TeamRoute => screen.TeamScreen?
  }

  class Component {
    /** The selection, written only through SetTeam and SetGame. */
    var team: Team
    var game: Game
    /** The router's state: its route table, the active key and the screen
        the active factory built. */
    var routes: map<string, Route>
    var active: string
    var screen: Screen
    /** Every message the router has been handed, in order. */
    ghost var routed: seq<Msg>
    const host: ScreenHost

    /** After `Init`: the two routes are registered, the active key is one of
        them and the active screen was built by its factory. */
    ghost predicate Valid()
      reads this
    {
      routes == RouteTable() && active in routes && BuiltBy(routes[active], screen)
    }

    constructor New(host: ScreenHost)
      ensures team == ZeroTeam && game == ZeroGame
      ensures routes == map[] && screen == Unmounted && routed == []
      ensures this.host == host
    {
      team := ZeroTeam;
      game := ZeroGame;
      routes := map[];
      active := "";
      screen := Unmounted;
      routed := [];
      this.host := host;
    }

    /** What the factory of `route` builds when it runs now: the "default"
        factory always asks for the conference "SEC"; the "team" factory reads
        the team selected at this moment. */
    function Build(route: Route): (s: Screen)
      reads this
      ensures BuiltBy(route, s)
      ensures route == TeamsRoute ==> s.conference == Some(DefaultConference)
      ensures route == TeamRoute ==> s.team == team
    {
      match route
      case TeamsRoute => TeamsScreen(Some(DefaultConference))
      case TeamRoute => TeamScreen(team)
    }

    /** The callback the "default" route's props carry: writes the team, and
        only the team. */
    method SetTeam(t: Team)
      modifies this
      ensures team == t
      ensures game == old(game) && routes == old(routes) && active == old(active)
      ensures screen == old(screen) && routed == old(routed)
      ensures old(Valid()) ==> Valid()
    {
      team := t;
    }

    /** The callback the "team" route's props carry: writes the game, and
        only the game. */
    method SetGame(g: Game)
      modifies this
      ensures game == g
      ensures team == old(team) && routes == old(routes) && active == old(active)
      ensures screen == old(screen) && routed == old(routed)
      ensures old(Valid()) ==> Valid()
    {
      game := g;
    }

    /** The router's switch to a route key: a registered key runs its factory
        now (reading the current selection) and makes the new screen active;
        an unregistered key changes nothing. The selection is never reset. */
    method SwitchTo(key: string) returns (cmd: Cmd)
      modifies this
      ensures key in routes ==> active == key && screen == Build(routes[key]) && cmd == host.init(screen)
      ensures key !in routes ==> active == old(active) && screen == old(screen) && cmd == NoCmd
      ensures team == old(team) && game == old(game) && routes == old(routes) && routed == old(routed)
      ensures old(Valid()) ==> Valid()
    {
      if key in routes {
        active := key;
        screen := Build(routes[key]);
        cmd := host.init(screen);
      } else {
        cmd := NoCmd;
      }
    }

    /** Registers the two route factories and starts on "default". */
    method Init() returns (cmd: Cmd)
      modifies this
      ensures Valid()
      ensures routes == RouteTable() && active == "default"
      ensures screen == TeamsScreen(Some(DefaultConference))
      ensures cmd == host.init(screen)
      ensures team == old(team) && game == old(game) && routed == old(routed)
    {
      routes := RouteTable();
      cmd := SwitchTo("default");
    }

    /** A quit key ends the program and never reaches the router; every other
        message goes to the router unchanged and its answer is returned. */
    method Update(msg: Msg) returns (cmd: Cmd)
      modifies this
      ensures IsQuitKey(msg) ==> cmd == DestroyCmd && routed == old(routed)
      ensures !IsQuitKey(msg) ==> cmd == host.update(screen, msg) && routed == old(routed) + [msg]
      ensures team == old(team) && game == old(game) && routes == old(routes)
      ensures active == old(active) && screen == old(screen)
    {
      if msg.KeyMsg? {
        if msg.key == "q" || msg.key == "ctrl+c" || msg.key == "esc" {
          return DestroyCmd;
        }
      }
      routed := routed + [msg];
      cmd := host.update(screen, msg);
    }

    /** Exactly what the router renders for the same size. */
    function Render(width: int, height: int): (s: string)
      reads this
      ensures s == host.view(screen, width, height)
    {
      host.view(screen, width, height)
    }
  }

  /** Selecting a team, opening its screen, going back and opening it again:
      the team screen is built with the selected team both times, because the
      selection outlives the route switches; asking for a key with no factory
      leaves the router where it was. */
  method SelectionSurvivesSwitches(app: Component, t: Team)
    requires app.Valid()
    modifies app
    ensures app.Valid() && app.team == t
    ensures app.active == "team" && app.screen == TeamScreen(t)
  {
    app.SetTeam(t);
    var _ := app.SwitchTo("team");
    assert app.screen == TeamScreen(t);
    var _ := app.SwitchTo("default");
    assert app.team == t && app.screen == TeamsScreen(Some(DefaultConference));
    var _ := app.SwitchTo("team");
    var before := app.screen;
    var _ := app.SwitchTo("teams");
    assert app.screen == before && app.active == "team";
  }
}
