/** The records the dashboard works on, as the database returns them.

    Dates are kept as opaque strings: only the database orders by them.
    Identifiers are the database's auto-increment integers. */
module Domain {

  /** A value that may be absent, as an optional TypeScript property. */
  datatype Option<T> = None | Some(value: T)

  /** `x || 0`: an absent count reads as zero. */
  function OrZero(o: Option<nat>): nat
  {
    match o
    case None => 0
    case Some(n) => n
  }

  datatype Team = Team(
    id: nat,
    name: string,
    city: string,
    abbreviation: string,
    conference: string,
    division: string)

  datatype Game = Game(
    id: nat,
    date: string,
    homeTeamId: nat,
    awayTeamId: nat,
    homeScore: int,
    awayScore: int,
    season: string,
    gameType: string)

  /** A game together with both of its teams, as the games endpoint returns it. */
  datatype GameWithTeams = GameWithTeams(game: Game, homeTeam: Team, awayTeam: Team)

  /** A team with the games it hosted and the games it played away, as the
      team query returns it when it includes both relations. */
  datatype TeamRecord = TeamRecord(team: Team, homeGames: seq<Game>, awayGames: seq<Game>)

  /** A team row enriched with its record; the client treats both counts as
      optional. */
  datatype TeamWithStats = TeamWithStats(base: TeamRecord, wins: Option<nat>, losses: Option<nat>)

  /** One line of the standings table. */
  datatype Standing = Standing(team: TeamRecord, wins: nat, losses: nat, winPercentage: real)

  /** A player together with the team they play for. */
  datatype PlayerWithTeam = PlayerWithTeam(
    id: nat,
    name: string,
    position: string,
    jerseyNumber: int,
    team: Team)
}
