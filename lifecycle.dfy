/** A match from set-up to result, across the pages and the game provider, and
    the interplay of saving and finishing. */
module Lifecycle {
  import opened Common
  import opened Types
  import GameContext
  import GamePage
  import HomePage
  import ResultPage
  import Outcome

  /** A match just started is shown as a draw if it is saved and opened from
      the history as it stands: it has no winner yet and every total is 0
      (unless it has exactly one team, whose total is compared with a missing
      one). */
  lemma FreshMatchShownAsDraw(id: string, date: int, teams: seq<Team>, userId: string)
    requires |teams| != 1
    ensures Outcome.ShownAsDraw(GameContext.NewGame(id, date, teams, userId))
  {
    var g := GameContext.NewGame(id, date, teams, userId);
    if |teams| >= 2 {
      assert g.scores[0].totalScore == 0 && g.scores[1].totalScore == 0;
    }
  }

  /** A saved draft whose first two totals are equal is shown as a draw,
      whatever the totals are, because it has no winner. */
  lemma SavedDraftShownAsDraw(gs: seq<Game>, g: Game, userId: string)
    requires g.winner == None
    requires |g.scores| >= 2 && g.scores[0].totalScore == g.scores[1].totalScore
    ensures var saved := GameContext.Upsert(gs, g.(userId := userId));
      Outcome.ShownAsDraw(saved[GameContext.FindIndex(saved, g.id)])
  {
    var saved := GameContext.Upsert(gs, g.(userId := userId));
    assert saved[GameContext.FindIndex(saved, g.id)] == g.(userId := userId);
  }

  /** The two team ids the set-up form assigns are the ids of its teams. */
  lemma SetUpTeamIds(teams: seq<Team>)
    requires |teams| == 2 && teams[0].id == "team1" && teams[1].id == "team2"
    ensures (set i | 0 <= i < |teams| :: teams[i].id) == {"team1", "team2"}
  {
    var ids := set i | 0 <= i < |teams| :: teams[i].id;
    assert teams[0].id in ids && teams[1].id in ids;
  }

  lemma DistinctTeamIds()
    ensures "team1" != "team2"
  {
    assert "team1"[4] != "team2"[4];
  }

  /** Team 1 and team 2 have the given entered lists, and no other team has any. */
  predicate ExampleInputs(inputs: map<string, GamePage.TeamInputs>, team1: GamePage.TeamInputs, team2: GamePage.TeamInputs) {
    inputs.Keys == {"team1", "team2"} && inputs["team1"] == team1 && inputs["team2"] == team2
  }

  /** The set-up form, with both team names filled in, starts a two-team
      match at zero for the signed-in user. */
  method SetUpExample(userId: string, matchId: string, team1Name: string, team2Name: string,
                      team1Players: seq<string>, team2Players: seq<string>)
    returns (provider: GameContext.GameProvider)
    requires !IsBlank(team1Name) && !IsBlank(team2Name)
    ensures fresh(provider)
    ensures provider.userId == userId && provider.store == map[] && provider.games == []
    ensures provider.currentGame ==
      Some(GameContext.NewGame(matchId, 0, HomePage.StartTeams(team1Name, team2Name, team1Players, team2Players).value, userId))
  {
    ghost var teams := HomePage.StartTeams(team1Name, team2Name, team1Players, team2Players);
    var home := new HomePage.HomeForm();
    home.team1Name, home.team2Name := team1Name, team2Name;
    home.team1Players, home.team2Players := team1Players, team2Players;
    provider := new GameContext.GameProvider(userId, map[]);
    var toGame := home.HandleStartGame(provider, matchId, 0);
    assert HomePage.StartTeams(home.team1Name, home.team2Name, home.team1Players, home.team2Players) == teams;
    assert toGame;
  }

  /** The score screen opens on a match the set-up form started, with empty
      lists for both teams. */
  method OpenExample(currentGame: Option<Game>) returns (view: GamePage.GameView)
    requires currentGame != None && |currentGame.value.teams| == 2
    requires currentGame.value.teams[0].id == "team1" && currentGame.value.teams[1].id == "team2"
    ensures fresh(view)
    ensures view.scores == currentGame.value.scores
    ensures ExampleInputs(view.teamInputs, GamePage.NoInputs, GamePage.NoInputs)
  {
    SetUpTeamIds(currentGame.value.teams);
    view := new GamePage.GameView();
    var goHome := view.Open(currentGame);
  }

  /** Typing a text that reads as `v` into a team's field and pressing Enter:
      `v` is appended to that team's list and the field is empty again; the
      scores are unchanged. */
  method TypeAndEnterText(view: GamePage.GameView, teamId: string, field: GamePage.Field, text: string, v: int)
    requires !IsBlank(text) && GamePage.Entry(text) == Some(v)
    modifies view
    ensures view.teamInputs == old(view.teamInputs)[teamId := GamePage.InputsOf(old(view.teamInputs), teamId).Push(field, v)]
    ensures view.inputValues == old(view.inputValues)[teamId := GamePage.ValuesOf(old(view.inputValues), teamId).WithText(field, "")]
    ensures view.scores == old(view.scores)
  {
    ghost var inputs := view.teamInputs;
    ghost var values := view.inputValues;
    ghost var before := GamePage.ValuesOf(values, teamId);
    view.ChangeInput(teamId, field, text);
    ghost var typed := view.inputValues;
    assert GamePage.TextOf(typed, teamId, field) == text;
    view.HandleKeyPress("Enter", teamId, field);
    GamePage.AddedEntry(inputs, teamId, field, text, v);
    GamePage.ClearedEntry(typed, teamId, field, text);
    before.WithTextTwice(field, text, "");
    UpdateTwice(values, teamId, before.WithText(field, text), before.WithText(field, ""));
  }

  /** Writing a key twice keeps only the second value. */
  lemma UpdateTwice<K, V>(m: map<K, V>, k: K, x: V, y: V)
    ensures m[k := x][k := y] == m[k := y]
  {
  }

  /** Typing the numeral of `n` into a team's field and pressing Enter: `n`
      is appended to that team's list and the field is empty again; the
      scores are unchanged. */
  method TypeAndEnter(view: GamePage.GameView, teamId: string, field: GamePage.Field, n: int)
    modifies view
    ensures view.teamInputs == old(view.teamInputs)[teamId := GamePage.InputsOf(old(view.teamInputs), teamId).Push(field, n)]
    ensures view.inputValues == old(view.inputValues)[teamId := GamePage.ValuesOf(old(view.inputValues), teamId).WithText(field, "")]
    ensures view.scores == old(view.scores)
  {
    EnterNumeral(n);
    TypeAndEnterText(view, teamId, field, FormatInt(n), n);
  }

  /** T1 enters a close (-101) and then types 50 as remaining points; T2 types
      30 as remaining points and enters the standard penalty (101). */
  method EnterExample(view: GamePage.GameView)
    requires ExampleInputs(view.teamInputs, GamePage.NoInputs, GamePage.NoInputs)
    modifies view
    ensures ExampleInputs(view.teamInputs, GamePage.TeamInputs([-101, 50], []), GamePage.TeamInputs([30], [101]))
    ensures view.scores == old(view.scores)
  {
    DistinctTeamIds();
    view.PressPreset("team1", GamePage.Close);
    TypeAndEnter(view, "team1", GamePage.RemainingPoints, 50);
    assert view.teamInputs["team1"] == GamePage.TeamInputs([-101, 50], []) by {
      assert [-101] + [50] == [-101, 50];
    }
    TypeAndEnter(view, "team2", GamePage.RemainingPoints, 30);
    view.PressPreset("team2", GamePage.Penalty);
    assert view.teamInputs["team2"] == GamePage.TeamInputs([30], [101]) by {
      assert [] + [30] == [30] && [] + [101] == [101];
    }
  }

  /** The scores of the worked example once the entries are summed. */
  const ExampleScores := [GameScore("team1", -51, 0, -51), GameScore("team2", 30, 101, 131)]

  /** The entries of the worked example, summed by the score screen and handed
      to the game provider. */
  method EnterAndRefresh(provider: GameContext.GameProvider, view: GamePage.GameView)
    requires provider != view as object
    requires provider.currentGame != None && |provider.currentGame.value.scores| == 2
    requires view.scores == provider.currentGame.value.scores
    requires view.scores[0].teamId == "team1" && view.scores[1].teamId == "team2"
    requires ExampleInputs(view.teamInputs, GamePage.NoInputs, GamePage.NoInputs)
    modifies provider, view
    ensures provider.currentGame == Some(old(provider.currentGame).value.(scores := ExampleScores))
    ensures provider.store == old(provider.store)
  {
    EnterExample(view);
    view.Refresh(provider);
    assert GamePage.Sum([-101, 50]) == -51 && GamePage.Sum([30]) == 30 && GamePage.Sum([101]) == 101;
    assert view.scores == ExampleScores;
    GameContext.WithTotalsIdempotent(ExampleScores);
  }

  /** What `finishGame` stores for the worked example: totals -51 and 131 and
      the first team as the winner. */
  lemma FinishedExampleStored(started: Game)
    requires |started.teams| == 2 && started.teams[0].id == "team1" && started.teams[1].id == "team2"
    ensures var f := GameContext.Finished(started.(scores := ExampleScores), "aylin");
      f.scores == ExampleScores && f.winner == Some("team1") && f.isDraw == Some(false)
  {
    var f := GameContext.Finished(started.(scores := ExampleScores), "aylin");
    assert "team1" != "team2" by {
      DistinctTeamIds();
    }
    assert f.scores == ExampleScores by {
      GameContext.WithTotalsIdempotent(ExampleScores);
    }
    GameContext.ResolveTwoTeams(f.scores);
  }

  /** Finishing the worked example: totals -51 and 131, the first team wins
      by 182 points, and the match is not shown as a draw. */
  lemma FinishedExample(started: Game)
    requires |started.teams| == 2 && started.teams[0].id == "team1" && started.teams[1].id == "team2"
    ensures var f := GameContext.Finished(started.(scores := ExampleScores), "aylin");
      f.scores == ExampleScores &&
      f.winner == Some("team1") && f.isDraw == Some(false) &&
      !Outcome.ShownAsDraw(f) && Outcome.ScoreDifference(f) == 182 &&
      Outcome.WinnerTeam(f) == Some(started.teams[0])
  {
    var played := started.(scores := ExampleScores);
    var f := GameContext.Finished(played, "aylin");
    FinishedExampleStored(started);
    DistinctTeamIds();
    assert Outcome.TwoTeamMatch(played);
    Outcome.FinishedShownAsDraw(played, "aylin");
    Outcome.FinishedScoreDifference(played, "aylin");
    assert Outcome.TeamIndex(f.teams, "team1") == 0;
  }

  /** The worked example of the game rules, played through the pages: after
      the entries above, finishing gives totals -51 and 131, the first team
      wins, and the result page shows it winning by 182 points. */
  method PlayedMatch(team1Name: string, team2Name: string, team1Players: seq<string>, team2Players: seq<string>)
    returns (shown: Option<Game>)
    requires !IsBlank(team1Name) && !IsBlank(team2Name)
    ensures shown != None && shown.value.scores == ExampleScores
    ensures shown.value.winner == Some("team1") && shown.value.isDraw == Some(false)
    ensures !Outcome.ShownAsDraw(shown.value) && Outcome.ScoreDifference(shown.value) == 182
    ensures Outcome.WinnerTeam(shown.value) != None && Outcome.WinnerTeam(shown.value).value.name == team1Name
  {
    var provider := SetUpExample("aylin", "match1", team1Name, team2Name, team1Players, team2Players);
    ghost var teams := HomePage.StartTeams(team1Name, team2Name, team1Players, team2Players).value;
    ghost var started := provider.currentGame.value;
    assert started == GameContext.NewGame("match1", 0, teams, "aylin");
    assert started.teams == teams;
    assert teams[0].id == "team1" && teams[1].id == "team2" && teams[0].name == team1Name;
    assert started.scores[0].teamId == "team1" && started.scores[1].teamId == "team2";
    var view := OpenExample(provider.currentGame);
    EnterAndRefresh(provider, view);
    assert provider.currentGame == Some(started.(scores := ExampleScores));
    provider.FinishGame();
    ghost var f := GameContext.Finished(started.(scores := ExampleScores), "aylin");
    assert provider.games == [] + [f];
    shown := ResultPage.LastGame(provider.games);
    assert shown == Some(f);
    FinishedExample(started);
  }

  /** Typing a numeral enters its value. */
  lemma EnterNumeral(n: int)
    ensures !IsBlank(FormatInt(n)) && GamePage.Entry(FormatInt(n)) == Some(n)
  {
    GamePage.EntryOfNumeral(n);
    assert Trim(FormatInt(n)) != "";
  }

  /** Saving a new match and then finishing it leaves two entries with its id
      in the user's list: the draft and the finished match. */
  method SaveThenFinish(provider: GameContext.GameProvider)
    requires provider.userId != "" && provider.currentGame != None
    requires |provider.currentGame.value.scores| > 0
    requires GameContext.CountId(
      GameContext.OwnGames(GameContext.Stored(provider.store, provider.userId), provider.userId),
      provider.currentGame.value.id) == 0
    modifies provider
    ensures GameContext.CountId(provider.games, old(provider.currentGame).value.id) == 2
    ensures provider.games[|provider.games| - 1] == GameContext.Finished(old(provider.currentGame).value, provider.userId)
    ensures provider.currentGame == None
  {
    ghost var g := provider.currentGame.value;
    GameContext.SaveThenFinishListsTwice(provider.store, provider.userId, g);
    provider.SaveGame();
    provider.FinishGame();
  }
}
