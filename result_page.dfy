/** The result page (`Result`): it shows the last game of the list; with no
    games it sends the user home. The game is classified by `Outcome`. */
module ResultPage {
  import opened Common
  import opened Types

  /** `games[games.length - 1]`, or none (the page goes home). */
  function LastGame(games: seq<Game>): (r: Option<Game>)
    ensures r == None <==> games == []
    ensures r != None ==> r.value == games[|games| - 1]
  {
    if |games| > 0 then Some(games[|games| - 1]) else None
  }
}
