/** The records of the college-football data service that the screens read,
    and the two remote calls they make. The HTTP client itself is not part of
    this model: a call is a function from its request parameters to a response. */
module Cfbd {
  import opened Wrappers

  /** The subset of the service's team record that the screens use. */
  datatype Team = Team(school: string, mascot: string)

  /** The zero value Go gives an unset team. */
  const ZeroTeam := Team("", "")

  /** The subset of the service's game record that the team screen reads.
      The start date is the service's RFC 3339 text; parsing it is done by a
      clock supplied from outside. */
  datatype Game = Game(
    week: int,
    homeTeam: string,
    awayTeam: string,
    homePoints: int,
    awayPoints: int,
    startDate: string,
    startTimeTbd: bool)

  const ZeroGame := Game(0, "", "", 0, 0, "", false)

  /** What a remote call gives back: a transport error, or an HTTP status with a body. */
  datatype Response<T> = TransportError | Reply(status: int, body: T)

  const StatusOK := 200

  /** The remote data service: list teams (optionally by conference) and list
      the games of one team in one season. */
  datatype Api = Api(
    getTeams: Option<string> -> Response<seq<Team>>,
    getGames: (int, string) -> Response<seq<Game>>)

  /** The reasons for which the screens end the process with a fatal log. */
  datatype Fatal = RetrievalFailed | UnexpectedStatus(code: int) | MalformedTimestamp(startDate: string)

  /** The two checks every screen makes on a response before using it: a
      transport error is fatal, and so is any status other than 200. */
  function Checked<T>(resp: Response<T>): (r: Result<T, Fatal>)
    ensures r.Ok? <==> resp.Reply? && resp.status == StatusOK
    ensures r.Ok? ==> r.value == resp.body
    ensures resp.TransportError? ==> r == Err(RetrievalFailed)
    ensures resp.Reply? && resp.status != StatusOK ==> r == Err(UnexpectedStatus(resp.status))
  {
    match resp
    case TransportError => Err(RetrievalFailed)
    case Reply(status, body) =>
      if status != StatusOK then Err(UnexpectedStatus(status)) else Ok(body)
  }
}
