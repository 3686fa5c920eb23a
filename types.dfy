/** The records the score keeper stores and passes around. Identifiers are
    opaque strings chosen by the caller (the application derives them from the
    clock); dates are timestamps in milliseconds. */
module Types {
  import opened Common

  /** A registered account; `email` is optional. */
  datatype User = User(id: string, username: string, email: Option<string>, password: string)

  datatype Team = Team(id: string, name: string, players: seq<string>)

  /** One team's running score: remaining points, penalties and their total. */
  datatype GameScore = GameScore(teamId: string, remainingPoints: int, penalties: int, totalScore: int)

  /** A match. `winner` is absent both while the match is unresolved and when a
      finished match is a draw (stored as null); `isDraw` is absent until the
      match is finished. */
  datatype Game = Game(
    id: string,
    date: int,
    teams: seq<Team>,
    scores: seq<GameScore>,
    winner: Option<string>,
    isDraw: Option<bool>,
    userId: string)
}
