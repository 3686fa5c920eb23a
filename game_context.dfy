/** The match lifecycle of `GameContext`: starting a match, keeping its scores,
    resolving it (the lowest total wins, a shared minimum is a draw) and merging
    it into the user's stored list of games. Browser storage is the map `store`
    from a user id to that user's saved list (the entry `games_<userId>`). */
module GameContext {
  import opened Common
  import opened Types

  // ---------------------------------------------------------------------------
  // Starting a match

  /** One zeroed score per team, in team order. */
  function ZeroScores(teams: seq<Team>): (r: seq<GameScore>)
    ensures |r| == |teams|
    ensures forall i :: 0 <= i < |teams| ==>
      r[i].teamId == teams[i].id && r[i].remainingPoints == 0 && r[i].penalties == 0 && r[i].totalScore == 0
  {
    if teams == [] then [] else [GameScore(teams[0].id, 0, 0, 0)] + ZeroScores(teams[1..])
  }

  /** The match `startGame` creates: no winner and no draw flag yet. */
  function NewGame(id: string, date: int, teams: seq<Team>, userId: string): Game {
    Game(id, date, teams, ZeroScores(teams), None, None, userId)
  }

  // ---------------------------------------------------------------------------
  // Totals

  /** Every total is the sum of its remaining points and penalties. */
  predicate TotalsConsistent(scores: seq<GameScore>) {
    forall i :: 0 <= i < |scores| ==> scores[i].totalScore == scores[i].remainingPoints + scores[i].penalties
  }

  /** The scores with each total recomputed from its two parts, whatever total
      they carried; everything else is kept. */
  function WithTotals(scores: seq<GameScore>): (r: seq<GameScore>)
    ensures |r| == |scores| && TotalsConsistent(r)
    ensures forall i :: 0 <= i < |scores| ==>
      r[i].teamId == scores[i].teamId && r[i].remainingPoints == scores[i].remainingPoints &&
      r[i].penalties == scores[i].penalties
  {
    if scores == [] then []
    else [scores[0].(totalScore := scores[0].remainingPoints + scores[0].penalties)] + WithTotals(scores[1..])
  }

  /** Recomputing totals that are already consistent changes nothing. */
  lemma WithTotalsIdempotent(scores: seq<GameScore>)
    requires TotalsConsistent(scores)
    ensures WithTotals(scores) == scores
  {
    var r := WithTotals(scores);
    forall i | 0 <= i < |scores| ensures r[i] == scores[i] {
      assert r[i].totalScore == scores[i].totalScore;
    }
  }

  // ---------------------------------------------------------------------------
  // Resolution

  /** The lowest total of a non-empty list of scores. */
  function MinTotal(scores: seq<GameScore>): (m: int)
    requires |scores| > 0
    ensures exists i :: 0 <= i < |scores| && scores[i].totalScore == m
    ensures forall i :: 0 <= i < |scores| ==> m <= scores[i].totalScore
  {
    if |scores| == 1 then scores[0].totalScore
    else
      var rest := MinTotal(scores[1..]);
      if scores[0].totalScore <= rest then scores[0].totalScore else rest
  }

  /** The scores whose total is `m`, in their original order. */
  function AtTotal(scores: seq<GameScore>, m: int): (r: seq<GameScore>)
    ensures |r| <= |scores|
    ensures forall s :: s in r ==> s in scores && s.totalScore == m
  {
    if scores == [] then []
    else (if scores[0].totalScore == m then [scores[0]] else []) + AtTotal(scores[1..], m)
  }

  lemma {:induction false} AtTotalSome(scores: seq<GameScore>, m: int)
    ensures |AtTotal(scores, m)| > 0 <==> exists i :: 0 <= i < |scores| && scores[i].totalScore == m
  {
    if scores != [] {
      AtTotalSome(scores[1..], m);
      if exists i :: 0 <= i < |scores| && scores[i].totalScore == m {
        var i :| 0 <= i < |scores| && scores[i].totalScore == m;
        if i > 0 {
          assert scores[1..][i - 1].totalScore == m;
        }
      }
    }
  }

  /** More than one score sits at total `m` exactly when two positions hold it. */
  lemma AtTotalTwo(scores: seq<GameScore>, m: int)
    ensures |AtTotal(scores, m)| > 1 <==>
      (exists i, j :: 0 <= i < j < |scores| && scores[i].totalScore == m && scores[j].totalScore == m)
  {
    if |AtTotal(scores, m)| > 1 {
      AtTotalTwoFound(scores, m);
    }
    if exists i, j :: 0 <= i < j < |scores| && scores[i].totalScore == m && scores[j].totalScore == m {
      var i, j :| 0 <= i < j < |scores| && scores[i].totalScore == m && scores[j].totalScore == m;
      AtTotalTwoCounted(scores, m, i, j);
    }
  }

  lemma {:induction false} AtTotalTwoFound(scores: seq<GameScore>, m: int)
    requires |AtTotal(scores, m)| > 1
    ensures exists i, j :: 0 <= i < j < |scores| && scores[i].totalScore == m && scores[j].totalScore == m
  {
    var tail := scores[1..];
    assert |AtTotal(scores, m)| == (if scores[0].totalScore == m then 1 else 0) + |AtTotal(tail, m)|;
    if scores[0].totalScore == m {
      AtTotalSome(tail, m);
      var j :| 0 <= j < |tail| && tail[j].totalScore == m;
      assert scores[j + 1].totalScore == m;
    } else {
      AtTotalTwoFound(tail, m);
      var i, j :| 0 <= i < j < |tail| && tail[i].totalScore == m && tail[j].totalScore == m;
      assert scores[i + 1].totalScore == m && scores[j + 1].totalScore == m;
    }
  }

  lemma {:induction false} AtTotalTwoCounted(scores: seq<GameScore>, m: int, i: nat, j: nat)
    requires i < j < |scores| && scores[i].totalScore == m && scores[j].totalScore == m
    ensures |AtTotal(scores, m)| > 1
  {
    var tail := scores[1..];
    assert tail[j - 1].totalScore == m;
    if i == 0 {
      AtTotalSome(tail, m);
    } else {
      AtTotalTwoCounted(tail, m, i - 1, j - 1);
    }
    assert |AtTotal(scores, m)| == (if scores[0].totalScore == m then 1 else 0) + |AtTotal(tail, m)|;
  }

  /** Two different teams hold the lowest total. */
  predicate SharedMinimum(scores: seq<GameScore>)
    requires |scores| > 0
  {
    exists i, j :: 0 <= i < j < |scores| && scores[i].totalScore == MinTotal(scores) && scores[j].totalScore == MinTotal(scores)
  }

  /** The team at position `k` has a total strictly below every other team's. */
  predicate UniqueMinimumAt(scores: seq<GameScore>, k: int) {
    0 <= k < |scores| && forall j :: 0 <= j < |scores| && j != k ==> scores[k].totalScore < scores[j].totalScore
  }

  datatype Resolution = Resolution(winner: Option<string>, isDraw: bool)

  /** The outcome `finishGame` derives from the final scores: the lowest total
      wins; when more than one team holds the lowest total the match is a draw
      and has no winner. (The source sorts a copy of the scores stably and takes
      the scores equal to the first one's total; the minimum and the scores at
      it, in their original order, are the same thing.) */
  function Resolve(scores: seq<GameScore>): (r: Resolution)
    requires |scores| > 0
    ensures r.isDraw <==> SharedMinimum(scores)
    ensures r.isDraw ==> r.winner == None
    ensures !r.isDraw ==> exists k :: UniqueMinimumAt(scores, k) && r.winner == Some(scores[k].teamId)
  {
    var m := MinTotal(scores);
    var winners := AtTotal(scores, m);
    AtTotalTwo(scores, m);
    AtTotalSome(scores, m);
    var isDraw := |winners| > 1;
    ResolveUnique(scores, m, winners);
    Resolution(if isDraw then None else Some(winners[0].teamId), isDraw)
  }

  lemma ResolveUnique(scores: seq<GameScore>, m: int, winners: seq<GameScore>)
    requires |scores| > 0 && m == MinTotal(scores) && winners == AtTotal(scores, m)
    requires |winners| > 0 <==> exists i :: 0 <= i < |scores| && scores[i].totalScore == m
    requires |winners| > 1 <==> exists i, j :: 0 <= i < j < |scores| && scores[i].totalScore == m && scores[j].totalScore == m
    ensures |winners| <= 1 ==> |winners| == 1 && exists k :: UniqueMinimumAt(scores, k) && scores[k] == winners[0]
  {
    if |winners| <= 1 {
      assert winners[0] in winners;
      var k :| 0 <= k < |scores| && scores[k] == winners[0];
      forall j | 0 <= j < |scores| && j != k ensures scores[k].totalScore < scores[j].totalScore {
      }
    }
  }

  /** With two teams the lower total wins, and equal totals are a draw. */
  lemma ResolveTwoTeams(scores: seq<GameScore>)
    requires |scores| == 2
    ensures var r := Resolve(scores);
      (r.isDraw <==> scores[0].totalScore == scores[1].totalScore) &&
      (scores[0].totalScore < scores[1].totalScore ==> r.winner == Some(scores[0].teamId)) &&
      (scores[1].totalScore < scores[0].totalScore ==> r.winner == Some(scores[1].teamId))
  {
    var r := Resolve(scores);
    var m := MinTotal(scores);
    if scores[0].totalScore == scores[1].totalScore {
      assert scores[0].totalScore == m && scores[1].totalScore == m;
    } else {
      var k :| UniqueMinimumAt(scores, k) && r.winner == Some(scores[k].teamId);
      assert scores[k].totalScore < scores[1 - k].totalScore;
    }
  }

  /** The match `finishGame` produces: totals recomputed, the outcome stamped,
      and the provider's user id enforced. */
  function Finished(g: Game, userId: string): (f: Game)
    requires |g.scores| > 0
    ensures f.id == g.id && f.date == g.date && f.teams == g.teams && f.userId == userId
    ensures |f.scores| == |g.scores| && TotalsConsistent(f.scores)
    ensures forall i :: 0 <= i < |g.scores| ==>
      f.scores[i].teamId == g.scores[i].teamId && f.scores[i].remainingPoints == g.scores[i].remainingPoints &&
      f.scores[i].penalties == g.scores[i].penalties
    ensures f.isDraw == Some(SharedMinimum(f.scores))
    ensures f.isDraw == Some(true) ==> f.winner == None
    ensures f.isDraw == Some(false) ==> exists k :: UniqueMinimumAt(f.scores, k) && f.winner == Some(f.scores[k].teamId)
  {
    var scores := WithTotals(g.scores);
    var res := Resolve(scores);
    g.(scores := scores, winner := res.winner, isDraw := Some(res.isDraw), userId := userId)
  }

  // ---------------------------------------------------------------------------
  // The stored list

  /** What storage holds for `userId`; nothing stored reads as the empty list. */
  function Stored(store: map<string, seq<Game>>, userId: string): seq<Game> {
    if userId in store then store[userId] else []
  }

  /** The entries that belong to `userId`, in their stored order. */
  function OwnGames(gs: seq<Game>, userId: string): (r: seq<Game>)
    ensures |r| <= |gs|
    ensures forall g :: g in r <==> g in gs && g.userId == userId
  {
    if gs == [] then []
    else (if gs[0].userId == userId then [gs[0]] else []) + OwnGames(gs[1..], userId)
  }

  /** Filtering distributes over concatenation, so it keeps the relative order. */
  lemma {:induction false} OwnGamesConcat(a: seq<Game>, b: seq<Game>, userId: string)
    ensures OwnGames(a + b, userId) == OwnGames(a, userId) + OwnGames(b, userId)
  {
    if a != [] {
      assert (a + b)[0] == a[0] && (a + b)[1..] == a[1..] + b;
      OwnGamesConcat(a[1..], b, userId);
      var head := if a[0].userId == userId then [a[0]] else [];
      assert OwnGames(a + b, userId) == head + OwnGames(a[1..] + b, userId);
      assert OwnGames(a, userId) == head + OwnGames(a[1..], userId);
    } else {
      assert a + b == b;
    }
  }

  /** A list that holds only the user's games passes the filter unchanged. */
  lemma {:induction false} OwnGamesOfOwn(gs: seq<Game>, userId: string)
    requires forall g :: g in gs ==> g.userId == userId
    ensures OwnGames(gs, userId) == gs
  {
    if gs != [] {
      OwnGamesOfOwn(gs[1..], userId);
    }
  }

  /** The list `loadGames` shows: the user's own stored games, and nothing when
      there is no user or nothing stored. */
  function LoadedGames(store: map<string, seq<Game>>, userId: string): (r: seq<Game>)
    ensures forall g :: g in r ==> g.userId == userId
    ensures userId == "" || userId !in store ==> r == []
    ensures userId != "" ==> forall g :: g in Stored(store, userId) && g.userId == userId ==> g in r
  {
    if userId == "" then [] else OwnGames(Stored(store, userId), userId)
  }

  /** `findIndex(g => g.id === id)`: the first position holding `id`, or -1. */
  function FindIndex(gs: seq<Game>, id: string): (k: int)
    ensures -1 <= k < |gs|
    ensures k >= 0 ==> gs[k].id == id && forall j :: 0 <= j < k ==> gs[j].id != id
    ensures k == -1 ==> forall j :: 0 <= j < |gs| ==> gs[j].id != id
  {
    if gs == [] then -1
    else if gs[0].id == id then 0
    else
      var k := FindIndex(gs[1..], id);
      if k == -1 then -1 else k + 1
  }

  /** How many entries carry `id`. */
  function CountId(gs: seq<Game>, id: string): nat {
    if gs == [] then 0 else (if gs[0].id == id then 1 else 0) + CountId(gs[1..], id)
  }

  /** `saveGame`'s merge: the first entry with the game's id is replaced by the
      game, and the game is appended when no entry has its id. */
  function Upsert(gs: seq<Game>, g: Game): (r: seq<Game>)
    ensures |gs| <= |r| <= |gs| + 1
    ensures (exists j :: 0 <= j < |gs| && gs[j].id == g.id) ==> |r| == |gs|
    ensures (forall j :: 0 <= j < |gs| ==> gs[j].id != g.id) ==> r == gs + [g]
    ensures FindIndex(r, g.id) >= 0 && r[FindIndex(r, g.id)] == g
    ensures forall j :: 0 <= j < |gs| && j != FindIndex(gs, g.id) ==> r[j] == gs[j]
    ensures forall x :: x in r ==> x in gs || x == g
    ensures FindIndex(gs, g.id) >= 0 ==> r == gs[FindIndex(gs, g.id) := g]
  {
    var k := FindIndex(gs, g.id);
    if k >= 0 then FindIndexAt(gs[k := g], g.id, k); gs[k := g]
    else FindIndexAt(gs + [g], g.id, |gs|); gs + [g]
  }

  /** The position of the first entry holding `id` is where `FindIndex` lands. */
  lemma FindIndexAt(gs: seq<Game>, id: string, k: nat)
    requires k < |gs| && gs[k].id == id && forall j :: 0 <= j < k ==> gs[j].id != id
    ensures FindIndex(gs, id) == k
  {
  }

  lemma {:induction false} CountIdConcat(a: seq<Game>, b: seq<Game>, id: string)
    ensures CountId(a + b, id) == CountId(a, id) + CountId(b, id)
  {
    if a != [] {
      assert (a + b)[0] == a[0] && (a + b)[1..] == a[1..] + b;
      CountIdConcat(a[1..], b, id);
      assert CountId(a + b, id) == (if a[0].id == id then 1 else 0) + CountId(a[1..] + b, id);
    } else {
      assert a + b == b;
    }
  }

  lemma {:induction false} CountIdReplace(gs: seq<Game>, k: nat, g: Game)
    requires k < |gs| && gs[k].id == g.id
    ensures CountId(gs[k := g], g.id) == CountId(gs, g.id)
  {
    if k > 0 {
      assert gs[k := g][1..] == gs[1..][k - 1 := g];
      CountIdReplace(gs[1..], k - 1, g);
    } else {
      assert gs[k := g][1..] == gs[1..];
    }
  }

  lemma {:induction false} CountIdPositive(gs: seq<Game>, k: nat, id: string)
    requires k < |gs| && gs[k].id == id
    ensures CountId(gs, id) > 0
  {
    if k > 0 {
      CountIdPositive(gs[1..], k - 1, id);
    }
  }

  lemma {:induction false} CountIdNone(gs: seq<Game>, id: string)
    requires forall j :: 0 <= j < |gs| ==> gs[j].id != id
    ensures CountId(gs, id) == 0
  {
    if gs != [] {
      CountIdNone(gs[1..], id);
    }
  }

  /** Saving never adds a second entry with the game's id: afterwards exactly one
      entry carries it, unless the list already held several. */
  lemma UpsertCount(gs: seq<Game>, g: Game)
    ensures CountId(Upsert(gs, g), g.id) == if CountId(gs, g.id) == 0 then 1 else CountId(gs, g.id)
  {
    var k := FindIndex(gs, g.id);
    if k >= 0 {
      CountIdReplace(gs, k, g);
      CountIdPositive(gs, k, g.id);
    } else {
      CountIdNone(gs, g.id);
      CountIdConcat(gs, [g], g.id);
    }
  }

  /** Saving the same match twice leaves what saving only the later version
      would: one entry, in the same place, holding the later version. */
  lemma UpsertTwice(gs: seq<Game>, g1: Game, g2: Game)
    requires g1.id == g2.id
    ensures Upsert(Upsert(gs, g1), g2) == Upsert(gs, g2)
  {
    var k := FindIndex(gs, g1.id);
    if k >= 0 {
      FindIndexAt(gs[k := g1], g1.id, k);
      assert gs[k := g1][k := g2] == gs[k := g2];
    } else {
      FindIndexAt(gs + [g1], g1.id, |gs|);
      assert (gs + [g1])[|gs| := g2] == gs + [g2];
    }
  }

  /** A match saved as a draft and then finished is listed twice: `saveGame`
      stores it under its id and `finishGame` appends the finished version
      without looking for that id. */
  lemma SaveThenFinishListsTwice(store: map<string, seq<Game>>, userId: string, g: Game)
    requires |g.scores| > 0
    requires CountId(OwnGames(Stored(store, userId), userId), g.id) == 0
    ensures var saved := Upsert(OwnGames(Stored(store, userId), userId), g.(userId := userId));
      var finished := OwnGames(Stored(store[userId := saved], userId), userId) + [Finished(g, userId)];
      CountId(finished, g.id) == 2
  {
    var own := OwnGames(Stored(store, userId), userId);
    var saved := Upsert(own, g.(userId := userId));
    assert Stored(store[userId := saved], userId) == saved;
    OwnGamesOfOwn(saved, userId);
    UpsertCount(own, g.(userId := userId));
    var f := Finished(g, userId);
    CountIdConcat(saved, [f], g.id);
    assert [f][1..] == [];
  }

  // ---------------------------------------------------------------------------
  // The provider's state

  /** The game provider of one signed-in user: the games on show, the match in
      progress, and browser storage. */
  class GameProvider {
    const userId: string
    var games: seq<Game>
    var currentGame: Option<Game>
    var store: map<string, seq<Game>>

    /** Mounting the provider loads the user's games. */
    constructor (userId: string, store: map<string, seq<Game>>)
      ensures this.userId == userId && this.store == store && currentGame == None
      ensures games == LoadedGames(store, userId)
    {
      this.userId := userId;
      this.store := store;
      currentGame := None;
      games := LoadedGames(store, userId);
    }

    method LoadGames()
      modifies this
      ensures games == LoadedGames(store, userId)
      ensures currentGame == old(currentGame) && store == old(store)
    {
      if userId == "" {
        games := [];
        return;
      }
      if userId in store {
        games := OwnGames(store[userId], userId);
      } else {
        games := [];
      }
    }

    /** Starts a match of `teams`, every team at zero, owned by this user. */
    method StartGame(teams: seq<Team>, id: string, date: int)
      modifies this
      ensures currentGame == Some(NewGame(id, date, teams, userId))
      ensures |currentGame.value.scores| == |teams|
      ensures forall i :: 0 <= i < |teams| ==> currentGame.value.scores[i] == GameScore(teams[i].id, 0, 0, 0)
      ensures currentGame.value.winner == None && currentGame.value.isDraw == None
      ensures games == old(games) && store == old(store)
    {
      currentGame := Some(NewGame(id, date, teams, userId));
    }

    /** Replaces the scores of the match in progress, each total recomputed from
      its parts; does nothing when no match is in progress. */
    method UpdateScores(scores: seq<GameScore>)
      modifies this
      ensures old(currentGame) == None ==> currentGame == None
      ensures old(currentGame) != None ==> currentGame == Some(old(currentGame).value.(scores := WithTotals(scores)))
      ensures currentGame != None ==> TotalsConsistent(currentGame.value.scores)
      ensures games == old(games) && store == old(store)
    {
      if currentGame.Some? {
        currentGame := Some(currentGame.value.(scores := WithTotals(scores)));
      }
    }

    /** Resolves the match in progress, appends it to the user's stored games
      (without looking for an entry with the same id) and ends the match. */
    method FinishGame()
      requires currentGame != None && userId != "" ==> |currentGame.value.scores| > 0
      modifies this
      ensures old(currentGame) == None || userId == "" ==>
        games == old(games) && currentGame == old(currentGame) && store == old(store)
      ensures old(currentGame) != None && userId != "" ==>
        var list := OwnGames(Stored(old(store), userId), userId) + [Finished(old(currentGame).value, userId)];
        games == list && store == old(store)[userId := list] && currentGame == None
    {
      if currentGame.Some? && userId != "" {
        var finished := Finished(currentGame.value, userId);
        var existing := Stored(store, userId);
        var userGames := OwnGames(existing, userId);
        var updated := userGames + [finished];
        games := updated;
        currentGame := None;
        store := store[userId := updated];
      }
    }

    /** Saves the match in progress as it stands, replacing the entry with its id
      or appending it; the match stays in progress. */
    method SaveGame()
      modifies this
      ensures currentGame == old(currentGame)
      ensures old(currentGame) == None || userId == "" ==> games == old(games) && store == old(store)
      ensures old(currentGame) != None && userId != "" ==>
        var list := Upsert(OwnGames(Stored(old(store), userId), userId), old(currentGame).value.(userId := userId));
        games == list && store == old(store)[userId := list]
    {
      if currentGame.Some? && userId != "" {
        var existing := Stored(store, userId);
        var userGames := OwnGames(existing, userId);
        var updated := Upsert(userGames, currentGame.value.(userId := userId));
        games := updated;
        store := store[userId := updated];
      }
    }
  }
}
