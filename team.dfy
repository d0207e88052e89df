/** The team screen: one table row per game of the selected team's season,
    and its key handling. */
module TeamView {
  import opened Wrappers
  import opened Cfbd
  import opened Tea
  import opened Decimal

  /** The season whose games the screen requests. */
  const Season := 2022

  /** The route the Back key asks the router for. */
  const BackRoute := "teams"

  /** The wall clock and the timestamp handling, which stay outside the model:
      `now` and parsed start times are instants on one ordered scale, `parse`
      reads the service's RFC 3339 text, and `format` is the display layout
      used for the Time cell. */
  datatype Clock = Clock(now: int, parse: string -> Option<int>, format: int -> string)

  /** A table row: the cells from left to right. */
  type Row = seq<string>

  datatype Column = Column(title: string, width: nat)

  /** The table widget's state as far as the screen sets it. How the widget
      reacts to keys (cursor movement) is its own and is given from outside. */
  datatype Table = Table(columns: seq<Column>, width: nat, focused: bool, rows: seq<Row>)

  /** The props the router hands to the screen. */
  datatype Props = Props(team: Team)

  function Columns(): seq<Column>
  {
    [Column("Week", 5), Column("Time", 20), Column("Opponent", 20), Column("R", 5), Column("Score", 20)]
  }

  // ---------------------------------------------------------------------------
  // Per-game derivation

  predicate IsAway(g: Game, school: string)
  {
    g.awayTeam == school
  }

  function Opponent(g: Game, school: string): string
  {
    if IsAway(g, school) then g.homeTeam else g.awayTeam
  }

  function Intro(g: Game, school: string): string
  {
    if IsAway(g, school) then "@" else "vs"
  }

  function TeamPoints(g: Game, school: string): int
  {
    if IsAway(g, school) then g.awayPoints else g.homePoints
  }

  function OpponentPoints(g: Game, school: string): int
  {
    if IsAway(g, school) then g.homePoints else g.awayPoints
  }

  /** A game is future when its time is to be decided or it starts strictly
      after now; a game whose timestamp does not parse is never asked. */
  predicate IsFuture(g: Game, clock: Clock)
  {
    g.startTimeTbd || (clock.parse(g.startDate).Some? && clock.now < clock.parse(g.startDate).value)
  }

  /** The Score cell: the selected team's points, a dash, the opponent's points. */
  function Score(teamPoints: int, opponentPoints: int): string
  {
    FormatInt(teamPoints) + "-" + FormatInt(opponentPoints)
  }

  /** The first '-' of s at or after `from`, or |s| if there is none. */
  function DashFrom(s: string, from: nat): (k: nat)
    requires from <= |s|
    ensures from <= k <= |s|
    ensures k < |s| ==> s[k] == '-'
    ensures forall j :: from <= j < k ==> s[j] != '-'
    decreases |s| - from
  {
    if from == |s| then |s| else if s[from] == '-' then from else DashFrom(s, from + 1)
  }

  /** Reads a Score cell back: the separator is the first dash after the first
      character (a leading dash is the team's sign). */
  function ParseScore(s: string): Option<(int, int)>
  {
    if |s| == 0 then None
    else
      var k := DashFrom(s, 1);
      if k == |s| then None
      else
        match (ParseInt(s[..k]), ParseInt(s[k + 1..]))
        case (Some(t), Some(o)) => Some((t, o))
        case _ => None
  }

  /** The Score cell names the team's points and then the opponent's, and
      nothing is lost in printing them. */
  lemma ScoreRoundTrip(teamPoints: int, opponentPoints: int)
    ensures ParseScore(Score(teamPoints, opponentPoints)) == Some((teamPoints, opponentPoints))
  {
    var a, b := FormatInt(teamPoints), FormatInt(opponentPoints);
    var s := Score(teamPoints, opponentPoints);
    assert s == a + "-" + b;
    assert s[|a|] == '-';
    assert forall j :: 1 <= j < |a| ==> s[j] == a[j] && IsDigit(a[j]);
    var k := DashFrom(s, 1);
    assert k == |a|;
    assert s[..k] == a;
    assert s[k + 1..] == b;
    ParseFormatInt(teamPoints);
    ParseFormatInt(opponentPoints);
  }

  /** The Result cell: empty for a future game; otherwise "W" when the team
      scored more than the opponent and "L" for a loss or a tie. */
  function ResultCell(g: Game, school: string, clock: Clock): string
  {
    if IsFuture(g, clock) then ""
    else if TeamPoints(g, school) > OpponentPoints(g, school) then "W" else "L"
  }

  function ScoreCell(g: Game, school: string, clock: Clock): string
  {
    if IsFuture(g, clock) then "" else Score(TeamPoints(g, school), OpponentPoints(g, school))
  }

  /** The row for one game, or the fatal error the screen stops on when a
      timestamp that is not to be decided fails to parse. What each cell holds
      is stated by the lemmas below. */
  function DeriveRow(g: Game, school: string, clock: Clock): (r: Result<Row, Fatal>)
    ensures r.Err? <==> !g.startTimeTbd && clock.parse(g.startDate).None?
    ensures r.Err? ==> r.error == MalformedTimestamp(g.startDate)
    ensures r.Ok? ==> |r.value| == 5
  {
    if !HasStart(g, clock) then
      Err(MalformedTimestamp(g.startDate))
    else
      Ok(Cells(g, school, clock))
  }

  /** A game's start can be used: its time is to be decided, or its start
      date parses. */
  predicate HasStart(g: Game, clock: Clock)
  {
    g.startTimeTbd || clock.parse(g.startDate).Some?
  }

  /** The five cells of a game whose start can be used. */
  function Cells(g: Game, school: string, clock: Clock): (row: Row)
    requires HasStart(g, clock)
    ensures |row| == 5
  {
    var time := if g.startTimeTbd then "" else clock.format(clock.parse(g.startDate).value);
    [FormatInt(g.week), time, Intro(g, school) + " " + Opponent(g, school),
     ResultCell(g, school, clock), ScoreCell(g, school, clock)]
  }

  /** Every derived row starts with the week in decimal, and its Opponent cell
      is "@ <home team>" when the selected school is the away team and
      "vs <away team>" otherwise. */
  lemma RowWeekAndOpponent(g: Game, school: string, clock: Clock)
    requires DeriveRow(g, school, clock).Ok?
    ensures ParseInt(DeriveRow(g, school, clock).value[0]) == Some(g.week)
    ensures DeriveRow(g, school, clock).value[2] ==
      (if g.awayTeam == school then "@ " + g.homeTeam else "vs " + g.awayTeam)
  {
    ParseFormatInt(g.week);
  }

  /** A game whose time is to be decided has empty Time, Result and Score
      cells, whatever its points, and never fails. */
  lemma TbdRow(g: Game, school: string, clock: Clock)
    requires g.startTimeTbd
    ensures DeriveRow(g, school, clock).Ok?
    ensures var row := DeriveRow(g, school, clock).value;
      row[1] == "" && row[3] == "" && row[4] == ""
  {
  }

  /** A game that starts strictly after now has its Time cell filled and
      empty Result and Score cells. */
  lemma FutureRow(g: Game, school: string, clock: Clock, start: int)
    requires !g.startTimeTbd && clock.parse(g.startDate) == Some(start) && clock.now < start
    ensures DeriveRow(g, school, clock).Ok?
    ensures var row := DeriveRow(g, school, clock).value;
      row[1] == clock.format(start) && row[3] == "" && row[4] == ""
  {
  }

  /** A game that started at or before now is played: its Time cell is
      filled, and its Result cell is "W" exactly when the selected team
      scored more (a tie is an "L"). */
  lemma PlayedRowResult(g: Game, school: string, clock: Clock, start: int)
    requires !g.startTimeTbd && clock.parse(g.startDate) == Some(start) && start <= clock.now
    ensures DeriveRow(g, school, clock).Ok?
    ensures var row := DeriveRow(g, school, clock).value;
      && row[1] == clock.format(start)
      && (row[3] == "W" || row[3] == "L")
      && (row[3] == "W" <==>
            if g.awayTeam == school then g.awayPoints > g.homePoints else g.homePoints > g.awayPoints)
  {
  }

  /** For a played game the Score cell reads back as the selected team's
      points followed by the opponent's, taken from the away or home fields. */
  lemma PlayedRowScore(g: Game, school: string, clock: Clock)
    requires !g.startTimeTbd && clock.parse(g.startDate).Some? && clock.parse(g.startDate).value <= clock.now
    ensures DeriveRow(g, school, clock).Ok?
    ensures ParseScore(DeriveRow(g, school, clock).value[4]) ==
      Some(if g.awayTeam == school then (g.awayPoints, g.homePoints) else (g.homePoints, g.awayPoints))
  {
    ScoreRoundTrip(TeamPoints(g, school), OpponentPoints(g, school));
  }

  /** The rows for a list of games, in order; the first game that cannot be
      derived decides the error. */
  function DeriveRows(games: seq<Game>, school: string, clock: Clock): (r: Result<seq<Row>, Fatal>)
    ensures r.Ok? <==> forall i :: 0 <= i < |games| ==> HasStart(games[i], clock)
    ensures r.Ok? ==> |r.value| == |games|
    ensures r.Ok? ==> forall i :: 0 <= i < |games| ==> r.value[i] == Cells(games[i], school, clock)
    ensures r.Err? ==>
      exists i :: 0 <= i < |games| && !HasStart(games[i], clock) && r.error == MalformedTimestamp(games[i].startDate)
  {
    if |games| == 0 then Ok([])
    else
      match DeriveRow(games[0], school, clock)
      case Err(e) => Err(e)
      case Ok(row) => Prepend(row, DeriveRows(games[1..], school, clock))
  }

  /** `rows` put in front of the rows of a result, or its error. */
  function PrependAll(rows: seq<Row>, rest: Result<seq<Row>, Fatal>): Result<seq<Row>, Fatal>
  {
    match rest
    case Err(e) => Err(e)
    case Ok(more) => Ok(rows + more)
  }

  function Prepend(row: Row, rest: Result<seq<Row>, Fatal>): Result<seq<Row>, Fatal>
  {
    PrependAll([row], rest)
  }

  lemma PrependAllTwice(front: seq<Row>, row: Row, rest: Result<seq<Row>, Fatal>)
    ensures PrependAll(front, Prepend(row, rest)) == PrependAll(front + [row], rest)
  {
    if rest.Ok? {
      assert front + ([row] + rest.value) == (front + [row]) + rest.value;
    }
  }

  /** The error reported for a list of games is the one of its first game
      whose start cannot be used. */
  lemma {:induction false} DeriveRowsFirstError(games: seq<Game>, i: nat, school: string, clock: Clock)
    requires i < |games| && !HasStart(games[i], clock)
    requires forall j :: 0 <= j < i ==> HasStart(games[j], clock)
    ensures DeriveRows(games, school, clock) == Err(MalformedTimestamp(games[i].startDate))
  {
    if i > 0 {
      DeriveRowsFirstError(games[1..], i - 1, school, clock);
    }
  }

  /** Georgia beat Oregon 49-3 at home: the row each school sees. */
  lemma GeorgiaOregonExample(clock: Clock, kickoff: int)
    requires clock.parse("2022-09-03T19:30:00.000Z") == Some(kickoff) && kickoff <= clock.now
    ensures var g := Game(1, "Georgia", "Oregon", 49, 3, "2022-09-03T19:30:00.000Z", false);
      && DeriveRow(g, "Georgia", clock) == Ok(["1", clock.format(kickoff), "vs Oregon", "W", "49-3"])
      && DeriveRow(g, "Oregon", clock) == Ok(["1", clock.format(kickoff), "@ Georgia", "L", "3-49"])
  {
    assert FormatInt(1) == "1";
    assert FormatInt(49) == "49";
    assert FormatInt(3) == "3";
    assert Score(49, 3) == "49-3";
    assert Score(3, 49) == "3-49";
    var g := Game(1, "Georgia", "Oregon", 49, 3, "2022-09-03T19:30:00.000Z", false);
    assert !IsFuture(g, clock);
    assert Intro(g, "Georgia") + " " + Opponent(g, "Georgia") == "vs Oregon";
    assert ResultCell(g, "Georgia", clock) == "W";
    assert ScoreCell(g, "Georgia", clock) == "49-3";
    assert Intro(g, "Oregon") + " " + Opponent(g, "Oregon") == "@ Georgia";
    assert ResultCell(g, "Oregon", clock) == "L";
    assert ScoreCell(g, "Oregon", clock) == "3-49";
    assert Cells(g, "Georgia", clock) == ["1", clock.format(kickoff), "vs Oregon", "W", "49-3"];
  }

  // ---------------------------------------------------------------------------
  // The screen component

  class Component {
    var props: Props
    var table: Table
    const keys: KeyMap
    /** The table widget's own update (cursor movement and the like). */
    const tableUpdate: (Table, Msg) -> (Table, Cmd)

    /** A focused table 70 wide with the five columns and no rows yet. */
    constructor New(keys: KeyMap, tableUpdate: (Table, Msg) -> (Table, Cmd))
      ensures table == Table(Columns(), 70, true, [])
      ensures props == Props(ZeroTeam)
      ensures this.keys == keys && this.tableUpdate == tableUpdate
    {
      props := Props(ZeroTeam);
      table := Table(Columns(), 70, true, []);
      this.keys := keys;
      this.tableUpdate := tableUpdate;
    }

    /** Stores the props, fetches the team's games of the season and fills the
        table with one row per game, in the order the service lists them.
        `Err` is the fatal exit; the table is then left as it was. */
    method Init(props: Props, api: Api, clock: Clock) returns (outcome: Result<Cmd, Fatal>)
      modifies this
      ensures this.props == props
      ensures var fetched := Checked(api.getGames(Season, props.team.school));
        && (fetched.Err? ==> outcome == Err(fetched.error) && table == old(table))
        && (fetched.Ok? ==>
              var rows := DeriveRows(fetched.value, props.team.school, clock);
              && (rows.Err? ==> outcome == Err(rows.error) && table == old(table))
              && (rows.Ok? ==> outcome == Ok(NoCmd) && table == old(table).(rows := rows.value, focused := true)))
    {
      this.props := props;
      var school := props.team.school;
      var fetched := Checked(api.getGames(Season, school));
      if fetched.Err? {
        return Err(fetched.error);
      }
      var games := fetched.value;
      var items: seq<Row> := [];
      var i := 0;
      assert games[0..] == games;
      assert PrependAll([], DeriveRows(games, school, clock)) == DeriveRows(games, school, clock) by {
        var all := DeriveRows(games, school, clock);
        if all.Ok? { assert [] + all.value == all.value; }
      }
      while i < |games|
        invariant 0 <= i <= |games|
        invariant this.props == props && table == old(table)
        invariant PrependAll(items, DeriveRows(games[i..], school, clock)) == DeriveRows(games, school, clock)
      {
        var row := DeriveRow(games[i], school, clock);
        ghost var rest := games[i..];
        assert rest[0] == games[i] && rest[1..] == games[i + 1..];
        if row.Err? {
          assert DeriveRows(rest, school, clock) == Err(row.error);
          return Err(row.error);
        }
        assert DeriveRows(rest, school, clock) == Prepend(row.value, DeriveRows(games[i + 1..], school, clock));
        PrependAllTwice(items, row.value, DeriveRows(games[i + 1..], school, clock));
        items := items + [row.value];
        i := i + 1;
      }
      assert games[i..] == [];
      assert DeriveRows(games[i..], school, clock) == Ok([]);
      assert items + [] == items;
      table := table.(rows := items, focused := true);
      return Ok(NoCmd);
    }

    /** Quit wins over Select, Select over Back. Quit and Select do not reach
        the table; Back asks for the "teams" route and still forwards the key. */
    method Update(msg: Msg) returns (cmd: Cmd, route: Option<string>)
      modifies this
      ensures props == old(props)
      ensures Matches(msg, keys.quit) ==> cmd == QuitCmd && route == None && table == old(table)
      ensures !Matches(msg, keys.quit) && Matches(msg, keys.select) ==>
        cmd == NoCmd && route == None && table == old(table)
      ensures !Matches(msg, keys.quit) && !Matches(msg, keys.select) ==>
        && (route == if Matches(msg, keys.back) then Some(BackRoute) else None)
        && table == tableUpdate(old(table), msg).0
        && cmd == Batch([tableUpdate(old(table), msg).1])
    {
      route := None;
      if msg.KeyMsg? {
        if Matches(msg, keys.quit) {
          return QuitCmd, None;
        } else if Matches(msg, keys.select) {
          return NoCmd, None;
        } else if Matches(msg, keys.back) {
          route := Some(BackRoute);
        }
      }
      var (updated, tableCmd) := tableUpdate(table, msg);
      table := updated;
      cmd := Batch([tableCmd]);
    }
  }
}
