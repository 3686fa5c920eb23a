/** How the result and history pages read a stored match: whether it is shown
    as a draw, which team is shown as the winner, the per-team winner and
    draw-team flags, the winning margin and the zero-defaulted score cells.
    Both pages compute these with the same expressions. */
module Outcome {
  import opened Common
  import opened Types
  import GameContext

  // ---------------------------------------------------------------------------
  // Looking things up

  // The pages look up teams and scores with `find` on different keys (a team's
  // `id`, a score's `teamId`, a score's `teamId` differing from a possibly
  // missing id), so each lookup is written out for its own key.

  /** `teams.find(t => t.id === id)`, as a position: -1 when no team has the id. */
  function TeamIndex(teams: seq<Team>, id: string): (k: int)
    ensures -1 <= k < |teams|
    ensures k >= 0 ==> teams[k].id == id && forall j :: 0 <= j < k ==> teams[j].id != id
    ensures k == -1 ==> forall j :: 0 <= j < |teams| ==> teams[j].id != id
  {
    if teams == [] then -1
    else if teams[0].id == id then 0
    else
      var k := TeamIndex(teams[1..], id);
      if k == -1 then -1 else k + 1
  }

  /** `scores.find(s => s.teamId === id)`, as a position: -1 when none has it. */
  function ScoreIndex(scores: seq<GameScore>, id: string): (k: int)
    ensures -1 <= k < |scores|
    ensures k >= 0 ==> scores[k].teamId == id && forall j :: 0 <= j < k ==> scores[j].teamId != id
    ensures k == -1 ==> forall j :: 0 <= j < |scores| ==> scores[j].teamId != id
  {
    if scores == [] then -1
    else if scores[0].teamId == id then 0
    else
      var k := ScoreIndex(scores[1..], id);
      if k == -1 then -1 else k + 1
  }

  /** `scores.find(s => s.teamId !== id)` where `id` may be `undefined`: the
      first score of another team; with no id every score qualifies. */
  function OtherScoreIndex(scores: seq<GameScore>, id: Option<string>): (k: int)
    ensures -1 <= k < |scores|
    ensures k >= 0 ==> Some(scores[k].teamId) != id && forall j :: 0 <= j < k ==> Some(scores[j].teamId) == id
    ensures k == -1 ==> forall j :: 0 <= j < |scores| ==> Some(scores[j].teamId) == id
  {
    if scores == [] then -1
    else if Some(scores[0].teamId) != id then 0
    else
      var k := OtherScoreIndex(scores[1..], id);
      if k == -1 then -1 else k + 1
  }

  /** The score of team `id`, if the match has one. */
  function ScoreOf(scores: seq<GameScore>, id: string): Option<GameScore> {
    var k := ScoreIndex(scores, id);
    if k < 0 then None else Some(scores[k])
  }

  /** `score?.totalScore` */
  function TotalOf(score: Option<GameScore>): Option<int> {
    if score.Some? then Some(score.value.totalScore) else None
  }

  /** `scores[i]?.totalScore`: undefined past the end. */
  function TotalAt(scores: seq<GameScore>, i: nat): Option<int> {
    if i < |scores| then Some(scores[i].totalScore) else None
  }

  // ---------------------------------------------------------------------------
  // The classification

  /** `game.winner` is truthy: set, and not the empty string. */
  predicate HasWinner(g: Game) {
    g.winner.Some? && g.winner.value != ""
  }

  /** `game.isDraw || (!game.winner && scores[0]?.totalScore === scores[1]?.totalScore)`:
      the stored flag, or, for a match without a winner, equal first two totals
      (two missing totals compare equal). */
  predicate ShownAsDraw(g: Game)
    ensures HasWinner(g) ==> (ShownAsDraw(g) <==> g.isDraw == Some(true))
    ensures !HasWinner(g) && |g.scores| >= 2 && g.scores[0].totalScore == g.scores[1].totalScore ==> ShownAsDraw(g)
    ensures !HasWinner(g) && g.isDraw != Some(true) && |g.scores| < 2 ==> (ShownAsDraw(g) <==> g.scores == [])
  {
    g.isDraw == Some(true) || (!HasWinner(g) && TotalAt(g.scores, 0) == TotalAt(g.scores, 1))
  }

  /** `winnerTeam`: the first team whose id is the winner, none without a winner. */
  function WinnerTeam(g: Game): (r: Option<Team>)
    ensures !HasWinner(g) ==> r == None
    ensures r != None ==> r.value in g.teams && g.winner == Some(r.value.id)
    ensures HasWinner(g) && (exists j :: 0 <= j < |g.teams| && g.teams[j].id == g.winner.value) ==> r != None
  {
    if HasWinner(g) then
      var k := TeamIndex(g.teams, g.winner.value);
      if k < 0 then None else Some(g.teams[k])
    else None
  }

  /** `isWinner`: the team is flagged as the winner. */
  predicate IsWinnerTeam(g: Game, team: Team)
    ensures IsWinnerTeam(g, team) && team.id != "" && team in g.teams ==>
      WinnerTeam(g) != None && WinnerTeam(g).value.id == team.id
  {
    !ShownAsDraw(g) && g.winner == Some(team.id)
  }

  /** `isDrawTeam`: in a match shown as a draw, a team whose total equals the
      first score's total. */
  predicate IsDrawTeam(g: Game, team: Team)
    ensures IsDrawTeam(g, team) ==> !IsWinnerTeam(g, team)
    ensures ShownAsDraw(g) && |g.scores| > 0 && g.scores[0].teamId == team.id ==> IsDrawTeam(g, team)
    ensures ShownAsDraw(g) && ScoreOf(g.scores, team.id) == None ==> (IsDrawTeam(g, team) <==> g.scores == [])
  {
    ShownAsDraw(g) && TotalOf(ScoreOf(g.scores, team.id)) == TotalAt(g.scores, 0)
  }

  /** `scoreDifference`: 0 for a draw; otherwise the total of the first score
      of a team other than the winner team, less the winner team's total, each
      read as 0 when missing. */
  function ScoreDifference(g: Game): (d: int)
    ensures ShownAsDraw(g) ==> d == 0
    ensures !ShownAsDraw(g) && WinnerTeam(g) == None ==> d == TotalAt(g.scores, 0).GetOr(0)
    ensures !ShownAsDraw(g) && WinnerTeam(g) != None && ScoreOf(g.scores, WinnerTeam(g).value.id) == None ==>
      d == TotalAt(g.scores, 0).GetOr(0)
    ensures !ShownAsDraw(g) && WinnerTeam(g) != None && ScoreOf(g.scores, WinnerTeam(g).value.id) != None ==>
      var k := OtherScoreIndex(g.scores, Some(WinnerTeam(g).value.id));
      d == (if k >= 0 then g.scores[k].totalScore else 0) - ScoreOf(g.scores, WinnerTeam(g).value.id).value.totalScore
  {
    var wt := WinnerTeam(g);
    var winnerScore := if wt.Some? then TotalOf(ScoreOf(g.scores, wt.value.id)).GetOr(0) else 0;
    var other := OtherScoreIndex(g.scores, if wt.Some? then Some(wt.value.id) else None);
    var loserScore := if other >= 0 then g.scores[other].totalScore else 0;
    if !ShownAsDraw(g) then loserScore - winnerScore else 0
  }

  /** The three numbers a team's card shows; `score?.field || 0`. */
  datatype Cells = Cells(remaining: int, penalties: int, total: int)

  function TeamCells(g: Game, team: Team): (c: Cells)
    ensures ScoreOf(g.scores, team.id) == None ==> c == Cells(0, 0, 0)
    ensures ScoreOf(g.scores, team.id) != None ==>
      var s := ScoreOf(g.scores, team.id).value;
      s.teamId == team.id && c == Cells(s.remainingPoints, s.penalties, s.totalScore)
  {
    var s := ScoreOf(g.scores, team.id);
    if s.Some? then Cells(s.value.remainingPoints, s.value.penalties, s.value.totalScore)
    else Cells(0, 0, 0)
  }

  /** In a match whose totals are consistent every card adds up, a team with
      no score included: its total is its remaining points plus its penalties. */
  lemma CellsAddUp(g: Game, team: Team)
    requires GameContext.TotalsConsistent(g.scores)
    ensures var c := TeamCells(g, team); c.total == c.remaining + c.penalties
  {
    var k := ScoreIndex(g.scores, team.id);
    if k >= 0 {
      assert g.scores[k].totalScore == g.scores[k].remainingPoints + g.scores[k].penalties;
    }
  }

  // ---------------------------------------------------------------------------
  // Finished matches

  /** Every score has a non-empty team id (the ids `team1` and `team2` the set-up
      form assigns). */
  predicate NamedScores(scores: seq<GameScore>) {
    forall i :: 0 <= i < |scores| ==> scores[i].teamId != ""
  }

  /** For a match that went through `finishGame`, the draw fallback agrees with
      the stored flag: it is shown as a draw exactly when two teams share the
      lowest total. */
  lemma FinishedShownAsDraw(g: Game, userId: string)
    requires |g.scores| > 0 && NamedScores(g.scores)
    ensures var f := GameContext.Finished(g, userId);
      f.isDraw == Some(ShownAsDraw(f)) &&
      (ShownAsDraw(f) <==> GameContext.SharedMinimum(f.scores))
  {
    var f := GameContext.Finished(g, userId);
    var res := GameContext.Resolve(f.scores);
    if !res.isDraw {
      var k :| GameContext.UniqueMinimumAt(f.scores, k) && res.winner == Some(f.scores[k].teamId);
      assert f.scores[k].teamId == g.scores[k].teamId;
      assert HasWinner(f);
    }
  }

  /** A two-team match as the set-up form builds it: the scores follow the
      teams, and the two team ids are distinct and non-empty. */
  predicate TwoTeamMatch(g: Game) {
    |g.teams| == 2 && |g.scores| == 2 &&
    g.scores[0].teamId == g.teams[0].id && g.scores[1].teamId == g.teams[1].id &&
    g.teams[0].id != g.teams[1].id && g.teams[0].id != "" && g.teams[1].id != ""
  }

  /** After `finishGame` on a two-team match, a team is flagged as the winner
      exactly when its total is strictly the lower one, and as a draw team
      exactly when the totals are equal. */
  lemma FinishedTwoTeamFlags(g: Game, userId: string, i: nat)
    requires TwoTeamMatch(g) && i < 2
    ensures var f := GameContext.Finished(g, userId);
      (IsWinnerTeam(f, f.teams[i]) <==> f.scores[i].totalScore < f.scores[1 - i].totalScore) &&
      (IsDrawTeam(f, f.teams[i]) <==> f.scores[0].totalScore == f.scores[1].totalScore)
  {
    var f := GameContext.Finished(g, userId);
    FinishedShownAsDraw(g, userId);
    GameContext.ResolveTwoTeams(f.scores);
    assert f.teams == g.teams && f.scores[i].teamId == f.teams[i].id;
    assert ScoreIndex(f.scores, f.teams[i].id) == i;
  }

  /** After `finishGame` on a two-team match, the winning margin is the gap
      between the two totals: positive when one team won, 0 on a draw. */
  lemma FinishedScoreDifference(g: Game, userId: string)
    requires TwoTeamMatch(g)
    ensures var f := GameContext.Finished(g, userId);
      var gap := f.scores[0].totalScore - f.scores[1].totalScore;
      ScoreDifference(f) == if gap < 0 then -gap else gap
  {
    var f := GameContext.Finished(g, userId);
    FinishedShownAsDraw(g, userId);
    GameContext.ResolveTwoTeams(f.scores);
    if f.scores[0].totalScore != f.scores[1].totalScore {
      var k := if f.scores[0].totalScore < f.scores[1].totalScore then 0 else 1;
      assert f.winner == Some(f.teams[k].id);
      assert TeamIndex(f.teams, f.teams[k].id) == k;
      assert WinnerTeam(f) == Some(f.teams[k]);
      assert ScoreIndex(f.scores, f.teams[k].id) == k;
      assert OtherScoreIndex(f.scores, Some(f.teams[k].id)) == 1 - k;
    }
  }
}
