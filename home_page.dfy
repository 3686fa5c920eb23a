/** The match set-up form (`Home` page): two team names and, per team, a list
    of player-name fields (two to begin with). */
module HomePage {
  import opened Common
  import opened Types
  import GameContext

  /** `players.filter(p => p.trim())`: the names that are not blank, as typed. */
  function NamedPlayers(players: seq<string>): (r: seq<string>)
    ensures |r| <= |players|
    ensures forall p :: p in r <==> p in players && !IsBlank(p)
  {
    if players == [] then []
    else (if IsBlank(players[0]) then [] else [players[0]]) + NamedPlayers(players[1..])
  }

  lemma ConcatAssoc(x: seq<string>, y: seq<string>, z: seq<string>)
    ensures x + (y + z) == (x + y) + z
  {
  }

  lemma NamedPlayersCons(x: string, s: seq<string>)
    ensures NamedPlayers([x] + s) == (if IsBlank(x) then [] else [x]) + NamedPlayers(s)
  {
    assert ([x] + s)[0] == x && ([x] + s)[1..] == s;
  }

  /** Filtering works field by field, so the names keep their order. */
  lemma {:induction false} NamedPlayersConcat(a: seq<string>, b: seq<string>)
    ensures NamedPlayers(a + b) == NamedPlayers(a) + NamedPlayers(b)
  {
    if a == [] {
      assert a + b == b;
    } else {
      var head: seq<string> := if IsBlank(a[0]) then [] else [a[0]];
      assert a + b == [a[0]] + (a[1..] + b);
      NamedPlayersCons(a[0], a[1..] + b);
      NamedPlayersConcat(a[1..], b);
      assert a == [a[0]] + a[1..];
      NamedPlayersCons(a[0], a[1..]);
      ConcatAssoc(head, NamedPlayers(a[1..]), NamedPlayers(b));
    }
  }

  /** When every field is filled in, all the names are kept, as typed. */
  lemma {:induction false} NamedPlayersAllNamed(players: seq<string>)
    requires forall i :: 0 <= i < |players| ==> !IsBlank(players[i])
    ensures NamedPlayers(players) == players
  {
    if players != [] {
      NamedPlayersAllNamed(players[1..]);
      assert [players[0]] + players[1..] == players;
    }
  }

  /** The teams `handleStartGame` builds: none when either name is blank;
      otherwise the ids `team1` and `team2`, the names as typed, and the
      players that were filled in. */
  function StartTeams(team1Name: string, team2Name: string, team1Players: seq<string>, team2Players: seq<string>)
    : (r: Option<seq<Team>>)
    ensures r == None <==> IsBlank(team1Name) || IsBlank(team2Name)
    ensures r != None ==>
      |r.value| == 2 &&
      r.value[0].id == "team1" && r.value[1].id == "team2" &&
      r.value[0].name == team1Name && r.value[1].name == team2Name &&
      (forall p :: p in r.value[0].players <==> p in team1Players && !IsBlank(p)) &&
      (forall p :: p in r.value[1].players <==> p in team2Players && !IsBlank(p)) &&
      r.value[0].players == NamedPlayers(team1Players) && r.value[1].players == NamedPlayers(team2Players)
  {
    if !IsBlank(team1Name) && !IsBlank(team2Name) then
      Some([Team("team1", team1Name, NamedPlayers(team1Players)), Team("team2", team2Name, NamedPlayers(team2Players))])
    else None
  }

  /** The form's state. */
  class HomeForm {
    var team1Name: string
    var team2Name: string
    var team1Players: seq<string>
    var team2Players: seq<string>

    constructor ()
      ensures team1Name == team2Name == "" && team1Players == team2Players == ["", ""]
    {
      team1Name, team2Name := "", "";
      team1Players, team2Players := ["", ""], ["", ""];
    }

    /** `updatePlayer`: replaces one player name of team 1 (for `team == 1`) or
        of team 2 (for any other number). */
    method UpdatePlayer(team: int, index: nat, value: string)
      requires index < |if team == 1 then team1Players else team2Players|
      modifies this
      ensures team == 1 ==> team1Players == old(team1Players)[index := value] && team2Players == old(team2Players)
      ensures team != 1 ==> team2Players == old(team2Players)[index := value] && team1Players == old(team1Players)
      ensures team1Name == old(team1Name) && team2Name == old(team2Name)
    {
      if team == 1 {
        var newPlayers := team1Players;
        newPlayers := newPlayers[index := value];
        team1Players := newPlayers;
      } else {
        var newPlayers := team2Players;
        newPlayers := newPlayers[index := value];
        team2Players := newPlayers;
      }
    }

    /** `handleStartGame`: starts a match of the two teams when both names are
        filled in, and then moves on to the score screen. */
    method HandleStartGame(provider: GameContext.GameProvider, id: string, date: int) returns (toGame: bool)
      modifies provider
      ensures toGame <==> !IsBlank(team1Name) && !IsBlank(team2Name)
      ensures !toGame ==> provider.currentGame == old(provider.currentGame)
      ensures toGame ==>
        provider.currentGame == Some(GameContext.NewGame(id, date, StartTeams(team1Name, team2Name, team1Players, team2Players).value, provider.userId))
      ensures provider.games == old(provider.games) && provider.store == old(provider.store)
    {
      var teams := StartTeams(team1Name, team2Name, team1Players, team2Players);
      if teams != None {
        provider.StartGame(teams.value, id, date);
        return true;
      }
      return false;
    }
  }
}
