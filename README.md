# cfbtui core, modelled in Dafny

cfbtui is a terminal dashboard for college-football data. It lists the teams
of a conference and shows one team's season schedule. This project models its
core in Dafny:

- **the application shell** (`app/app.go`): it owns the selection (the chosen
  team and game) and registers two route factories, `"default"` and `"team"`.
  It ends the program on `q`, `ctrl+c` or `esc` before the router sees the key,
  and passes every other message to the router.
- **the team screen** (`views/team/team.go`): it derives one five-cell table
  row per game (Week, Time, Opponent, Result, Score) and dispatches the Quit,
  Select and Back keys.
- **the team list** (`views/teams/teams.go`): it turns the service's team list
  into list items, in order, drawn by a one-line delegate.
- **the prototype root model** (`main.go`): a 32-bit play index stepped by the
  arrow keys across two consecutive key switches, and the 100-character field
  drawing `BallOn`.

Files and modules:

| file | module | what |
|---|---|---|
| wrappers.dfy | Wrappers | `Option`, `Result` |
| cfbd.dfy | Cfbd | team and game records, the remote calls as functions, the fatal response checks |
| tea.dfy | Tea | messages, commands, key bindings |
| decimal.dfy | Decimal | Go's `%d` and its inverse |
| team.dfy | TeamView | row derivation and the team screen component |
| teams.dfy | TeamsView | the team list and its delegate |
| app.dfy | App | the shell, its selection and its abstract router |
| prototype.dfy | Prototype | the prototype model, `Update` and `BallOn` |

Inputs from outside the program are parameters:

- The remote service is a pair of functions from request parameters to a
  response (`Cfbd.Api`).
- The clock is `TeamView.Clock`. It holds "now", the RFC 3339 parse and the
  display formatter. Instants are integers on one ordered scale.
- Widget behaviour is given as functions: the table's and the viewport's key
  handling, and the hosted screens' init, update and view (`App.ScreenHost`).
- The `log.Fatalf` exits are `Err` results carrying a `Cfbd.Fatal` reason.

Two details of the code:

- The team screen's Back key asks for the route `"teams"`
  (views/team/team.go:146). Only `"default"` and `"team"` are registered.
- `views/teams/teams.go`'s `New` takes options and returns a `Model` holding
  a list of schools.

## Model

| member | source | states |
|---|---|---|
| Cfbd.Checked | views/team/team.go:64-69 | A transport error is fatal (`RetrievalFailed`). Any status other than 200 is fatal with that code. Otherwise the body is used. |
| Decimal.FormatNat | views/team/team.go:123 | `%d` of a non-negative number is a non-empty string of digits. Its first digit is '0' only for zero, and it has one digit exactly when the number is below 10. |
| Decimal.FormatInt | views/team/team.go:123 | `%d` of any int starts with '-' exactly when the number is negative, and all its other characters are digits. |
| Decimal.ParseNat | views/team/team.go:123 | The digit reader (the inverse of `%d`) succeeds exactly on non-empty all-digit strings. |
| Decimal.ParseFormatNat | views/team/team.go:123 | The digits of n read back as n. |
| Decimal.ParseFormatInt | views/team/team.go:123 | `%d` text of any int reads back as that int, so the Week cell determines the week. |
| Decimal.FormatIntInjective | views/team/team.go:119 | Two different numbers never print the same. |
| TeamView.DashFrom | views/team/team.go:119 | A helper of `ParseScore`, the reader of the Score text (the inverse of `"%d-%d"`). It finds the first '-' at or after a position, or the end. Everything before it is dash-free. |
| TeamView.ScoreRoundTrip | views/team/team.go:119 | The Score text `"%d-%d"` reads back as (team points, opponent points), for all ints, negative ones included. |
| TeamView.DeriveRow | views/team/team.go:87-96 | A row fails exactly when the time is not TBD and the start date does not parse. The error is `MalformedTimestamp` of that date. Otherwise the row has 5 cells. |
| TeamView.RowWeekAndOpponent | views/team/team.go:72-125 | Cell 0 reads back as the week. Cell 2 is `"@ " + home` when `awayTeam == school`, and `"vs " + away` otherwise. |
| TeamView.TbdRow | views/team/team.go:87-120 | A TBD game never fails, and its Time, Result and Score cells are empty whatever the points. |
| TeamView.FutureRow | views/team/team.go:91-120 | A start strictly after now gives a filled Time cell and empty Result and Score cells. |
| TeamView.PlayedRowResult | views/team/team.go:97-118 | A start at or before now gives a filled Time cell. Result is "W" or "L", and "W" exactly when the team's points (away or home by `isAway`) beat the opponent's. A tie is "L". |
| TeamView.PlayedRowScore | views/team/team.go:106-119 | For a played game, the Score cell reads back as the team's points and then the opponent's, taken from the away or home fields by `isAway`. |
| TeamView.DeriveRows | views/team/team.go:70-129 | The rows succeed exactly when every game's start is usable. Then there is one row per game, in response order, each the game's cells. On error, some game's start is unusable and the error names it. |
| TeamView.DeriveRowsFirstError | views/team/team.go:71-96 | The reported error is the first game (in response order) whose start fails to parse. |
| TeamView.GeorgiaOregonExample | views/team/team.go:72-128 | Georgia 49, Oregon 3, played: for Georgia the row is `1, time, "vs Oregon", "W", "49-3"`; for Oregon it is `1, time, "@ Georgia", "L", "3-49"`. |
| TeamView.Component.New | views/team/team.go:40-54 | The table starts focused, 70 wide, with the columns Week 5, Time 20, Opponent 20, R 5, Score 20 and no rows. |
| TeamView.Component.Init | views/team/team.go:56-133 | Stores the props and requests season 2022 for the team's school. A failed response or an unparsable start is the fatal outcome, with the table unchanged. Otherwise the table rows are `DeriveRows` of the response, the table is focused, and the command is nil. |
| TeamView.Component.Update | views/team/team.go:135-153 | Quit returns the quit command without touching the table. Select (when not Quit) returns nil without touching the table. Back (when neither) requests route "teams" and still forwards the key to the table. Any other message is forwarded, and the table's command is returned in a batch. |
| TeamsView.DelegateContract | views/teams/teams.go:37-57 | The delegate writes exactly the item's school, which is also its filter value. Height is 1, spacing is 1, and its Update returns nil. |
| TeamsView.New | views/teams/teams.go:77-106 | Requests with `opts.conference`. A failed response is fatal. Otherwise there is one item per response team, in order, the list holds the same items (80 by 30), each item filters and renders as its school, and `sort` and `conference` are empty whatever the options. |
| App.RouteTable | app/app.go:39-63 | Exactly two keys are registered: "default" (the team list) and "team" (the team screen). |
| App.Component.New | app/app.go:27-31 | A new shell has the zero selection, no routes and no screen. |
| App.Component.Build | app/app.go:40-62 | The "default" factory always builds a team list for conference "SEC". The "team" factory builds a team screen for the team selected when it runs. |
| App.Component.SetTeam | app/app.go:45-47 | Writes the team and nothing else. The router state and the game are untouched. |
| App.Component.SetGame | app/app.go:56-58 | Writes the game and nothing else. |
| App.Component.SwitchTo | app/app.go:52-62 | A registered key runs its factory now, reading the current selection, and returns the new screen's init command. An unregistered key changes nothing. The selection is never reset. |
| App.Component.Init | app/app.go:33-64 | Registers the route table and starts on "default" with the SEC team list. The command is that screen's init command. The selection is unchanged. |
| App.Component.Update | app/app.go:66-75 | `q`, `ctrl+c` and `esc` return Destroy and never reach the router. Any other message goes to the router unchanged, and the router's answer is returned. |
| App.Component.Render | app/app.go:77-79 | Returns exactly what the router renders for the same width and height. |
| App.SelectionSurvivesSwitches | app/app.go:45-58 | After SetTeam(t), switching to "team", back to "default" and to "team" again builds the team screen for t each time. The selection is still t, and an unregistered key leaves the router where it was. |
| Prototype.Inc32 | main.go:73-74 | `Index++` on an int32 adds one below the maximum and wraps to the minimum at the maximum. |
| Prototype.Dec32 | main.go:67-72 | `Index--` on an int32 subtracts one above the minimum and wraps to the maximum at the minimum. |
| Prototype.InitialModel | main.go:46-50 | The initial model has no plays and index 0. |
| Prototype.Update | main.go:56-112 | Quit keys return Quit with the model unchanged. "right" adds 2 (both switches step it; exact below the 32-bit maximum, wrapping above). "left" gives max(index − 2, 0) from a non-negative index. "r" replaces the plays and nothing else. Other keys go to the viewport, and its command is returned. Non-key messages change nothing. |
| Prototype.BallOn | main.go:114-128 | The field is 100 characters long. It has 'x' at `ydLine` when 0 ≤ `ydLine` < 100, '\|' at the other multiples of five and a space elsewhere. There is at most one 'x', there is one exactly when `ydLine` is in range, and the view size and padding have no effect. |

## Left out

- The network (pkg/cfbd/client.go, pkg/cfbd/scoreboard.go, `GetPlays`): each call is a function parameter returning a response. The access token, base URL and context are not modelled.
- Wall-clock time, RFC 3339 parsing and the `"Jan 02 T 03:04 pm"` layout are supplied by `TeamView.Clock`. The source formats the parsed time before it checks the parse error. That order is invisible here, because the process then exits.
- The router library (reactea): how it picks up a route change requested from a screen, and what it does with the unregistered key "teams" that Back asks for. `App.Component.SwitchTo` leaves the active route unchanged for an unregistered key.
- The internal key handling and rendering of the table, list and viewport widgets: they are function parameters, so the team screen's `Render`, the list's `View`/`Update` and the viewport's `View` have no model. `lipgloss` styles, `glamour` rendering, `View`/`helpView`, `getVPContent` and the markdown `content` constant are display only.
- The keybindings package is not part of this model: `Tea.KeyMap` is a parameter, and a binding matches when the key name is in its key set.
- TeamView.Component.Update: a binding's enabled flag is not modelled. Every binding counts as enabled.
- TeamView.Component.Init: the props' `SetGame` callback, context and client are not carried. The team screen never calls `SetGame`.
- Prototype.Update: both `"r"` fetches are taken to return the same plays (`fetched`). The `Teams` and `NavStack` fields of the prototype model are never read or written by `Update` and are left out.
- `main()` functions, `godotenv`/`viper` configuration, log-to-file and `log.Println` calls have no model.
- pkg/navigation: `PushToStack` only logs and returns nil. The prototype's `Update` treats the two navigation messages accordingly, and the rest of the package is type declarations.
