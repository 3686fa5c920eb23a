# Yaz Boz score keeper — a Dafny model

This project models the core of a browser score keeper for two-team games of
"Yaz Boz" (Okey-style scoring, where the lowest total wins). It covers:

- **The match lifecycle** (`GameContext`):
  - starting a match with zeroed scores;
  - keeping totals equal to remaining points plus penalties;
  - resolving a finished match: the lowest total wins, and a shared minimum is a draw with no winner;
  - merging matches into the user's stored list. Saving a draft replaces the entry with its id. Finishing a match appends it without looking for an earlier entry, so a draft that was saved and then finished is listed twice. The model keeps that behaviour.
- **The score-entry screen** (`GamePage`): per-team lists of entered values, text entry with trimming and integer parsing, the quick-entry buttons, and the effect that turns the lists into scores.
- **The account table** (`AuthContext`):
  - registration with case-insensitive unique usernames and a four-character minimum password;
  - sign-in;
  - sign-out;
  - the signed-in state.
- **The sign-up form** (`RegisterPage`): an ordered chain of checks, where the first failure decides the message.
- **The match set-up form** (`HomePage`): both team names are required, the ids `team1` and `team2` are fixed, and blank player names are dropped.
- **The result and history pages** (`ResultPage`, `HistoryPage`, `Outcome`):
  - selecting the last game;
  - listing games newest first with a stable sort;
  - the draw fallback;
  - the winner lookup;
  - the per-team winner and draw flags;
  - the winning margin;
  - zero-defaulted score cells.
- **A cross-page module** (`Lifecycle`): a match played through the set-up form, the score screen and the result page, plus the save-then-finish duplicate.

Browser storage is modelled as fields:

- the game provider's `store` maps a user id to the stored list;
- the account provider's `users` and `savedUser` hold the account list and the stored session.

Ids and dates are parameters. Dates are integer timestamps.

Finishing a match appends it to the stored list (`src/context/GameContext.tsx:103`) rather than replacing its draft. The model follows the code, and `GameContext.SaveThenFinishListsTwice` proves the consequence.

## Model

| member | source | states |
|---|---|---|
| GameContext.ZeroScores | src/context/GameContext.tsx:49-54 | One score per team, in team order, carrying the team's id, with remaining points, penalties and total all 0 |
| GameContext.GameProvider.StartGame | src/context/GameContext.tsx:44-58 | The match in progress becomes a new match of the given teams, every score zero, owned by the provider's user, with winner and draw flag unset; the game list and storage are untouched |
| GameContext.WithTotals | src/context/GameContext.tsx:64-67 | Every total is recomputed as remaining points plus penalties, whatever total was passed in; team ids, parts, order and length are kept |
| GameContext.WithTotalsIdempotent | src/context/GameContext.tsx:74-77 | Scores whose totals are already consistent come back unchanged |
| GameContext.GameProvider.UpdateScores | src/context/GameContext.tsx:60-70 | No match in progress: nothing changes. Otherwise the match takes the given scores with recomputed totals, so every total equals its parts |
| GameContext.MinTotal | src/context/GameContext.tsx:80-81 | The smallest total of a non-empty score list: held by some score and not above any score |
| GameContext.AtTotalTwo | src/context/GameContext.tsx:84-85 | More than one score sits at a total exactly when two positions hold that total |
| GameContext.Resolve | src/context/GameContext.tsx:74-90 | The match is a draw exactly when two teams share the lowest total, and a draw has no winner; otherwise the winner is the team whose total is strictly below every other team's |
| GameContext.ResolveTwoTeams | src/context/GameContext.tsx:80-90 | With two teams, the lower total wins and equal totals are a draw |
| GameContext.OwnGames | src/context/GameContext.tsx:100 | Keeps exactly the entries owned by the user, never growing the list |
| GameContext.OwnGamesConcat | src/context/GameContext.tsx:100 | The ownership filter distributes over concatenation, so it keeps stored order |
| GameContext.OwnGamesOfOwn | src/context/GameContext.tsx:118 | A list holding only the user's games passes the filter unchanged |
| GameContext.LoadedGames | src/context/GameContext.tsx:27-42 | Only the user's own games are loaded, every stored game of theirs is loaded, and the list is empty with no user id or nothing stored |
| GameContext.GameProvider.constructor | src/context/GameContext.tsx:23-25 | Mounting the provider loads the user's games, with no match in progress |
| GameContext.GameProvider.LoadGames | src/context/GameContext.tsx:27-42 | The game list becomes the loaded list; the match in progress and storage are untouched |
| GameContext.FindIndex | src/context/GameContext.tsx:121 | The first position whose entry has the id, or -1 when none has it |
| GameContext.Upsert | src/context/GameContext.tsx:121-124 | The first entry with the game's id, and only that one, is replaced by the game, every other entry keeping its place; without such an entry the game is appended; the length grows by at most one and nothing but the game is added |
| GameContext.UpsertCount | src/context/GameContext.tsx:118-127 | Saving leaves exactly one entry with the game's id when there was none, and never adds a second one |
| GameContext.UpsertTwice | src/context/GameContext.tsx:111-129 | Saving a match twice is the same as saving only its later version |
| GameContext.GameProvider.SaveGame | src/context/GameContext.tsx:111-129 | With no match in progress or no user id nothing changes; otherwise the user's filtered stored list with the match upserted becomes both the game list and the stored entry, and the match stays in progress |
| GameContext.Finished | src/context/GameContext.tsx:74-93 | The finished match keeps its id, date and teams, takes the provider's user id, keeps each score's team and parts with the total recomputed; it is flagged a draw exactly when two teams share the lowest total, a draw has no winner, and otherwise the winner is the team holding the unique lowest total |
| GameContext.GameProvider.FinishGame | src/context/GameContext.tsx:72-109 | With no match in progress or no user id nothing changes; otherwise the user's filtered stored list followed by the resolved match becomes both the game list and the stored entry, and the match in progress is cleared |
| GameContext.CountIdConcat | src/context/GameContext.tsx:103 | Counting the entries with an id distributes over concatenation |
| GameContext.SaveThenFinishListsTwice | src/context/GameContext.tsx:96-127 | A new match that is saved and then finished ends up with two entries carrying its id: the draft and the finished match |
| GamePage.TeamInputs.Push | src/pages/Game.tsx:49-61 | Appends the value to the end of the chosen list and leaves the other list alone |
| GamePage.Sum | src/pages/Game.tsx:82-83 | A sum of entries none of which is negative is not negative |
| GamePage.SumFront | src/pages/Game.tsx:82-83 | The left fold `reduce` performs equals the first value plus the sum of the rest |
| GamePage.SumConcat | src/pages/Game.tsx:82-83 | The running sum of two lists one after the other is the sum of their sums |
| GamePage.SumPermutation | src/pages/Game.tsx:82-84 | A team's sum depends only on which values were entered, not on their order |
| GamePage.AddedInputs | src/pages/Game.tsx:42-61 | Blank or unparsable text leaves every list unchanged; otherwise exactly the parsed value is appended to the chosen list of the chosen team, and the other list and all other teams are untouched |
| GamePage.ClearedValues | src/pages/Game.tsx:65-71 | After a value is taken, the field it came from is emptied and every other field keeps its text |
| GamePage.GameView.AddValue | src/pages/Game.tsx:41-72 | The lists and the entry fields become the ones above, and the shown scores are untouched |
| GamePage.GameView.ChangeInput | src/pages/Game.tsx:100-111 | Only the edited field takes the typed text |
| GamePage.GameView.HandleKeyPress | src/pages/Game.tsx:114-121 | Enter on a non-blank field adds its text as a value; any other key, or a blank field, changes nothing |
| GamePage.Entry | src/pages/Game.tsx:42-46 | Blank text gives no value; otherwise the value is the trimmed text parsed as an integer, none when that fails |
| GamePage.EntryIgnoresPadding | src/pages/Game.tsx:41-42 | Padding the text with white space does not change the value entered |
| GamePage.EntryOfNumeral | src/pages/Game.tsx:42-46 | A numeral typed as printed is entered as its own value |
| GamePage.PresetValue | src/pages/Game.tsx:185-197 | The quick-entry buttons enter -101, -202 and 808 as remaining points and 101 as a penalty |
| GamePage.GameView.PressPreset | src/pages/Game.tsx:185-197 | Pressing a quick-entry button appends that button's value to the team's list for its field and empties that field, as any entry does; the shown scores are untouched |
| GamePage.RecomputedScores | src/pages/Game.tsx:78-92 | Each score whose team has entered lists takes their sums and the sum of those as its total; every other score is kept; ids and order never change |
| GamePage.RecomputedConsistent | src/pages/Game.tsx:82-95 | When every team has lists, the derived scores already have consistent totals, so the game provider keeps them as handed over |
| GamePage.GameView.constructor | src/pages/Game.tsx:14-16 | The score screen opens with no scores, no entered lists and no typed text |
| GamePage.GameView.Open | src/pages/Game.tsx:18-34 | Without a match in progress the page goes home; otherwise it shows the match's scores and gives exactly the match's teams empty lists and empty fields |
| GamePage.GameView.Refresh | src/pages/Game.tsx:75-97 | Skips when there are no lists or no scores; otherwise shows the recomputed scores and hands them to the game provider |
| Common.Trim | src/pages/Game.tsx:42 | The trimmed text is never longer, and neither starts nor ends with white space |
| Common.TrimShape | src/pages/Game.tsx:42 | The trimmed text is the part of the text between a run of leading and a run of trailing white space |
| Common.TrimIdempotent | src/pages/Game.tsx:42 | Trimming trimmed text changes nothing |
| Common.TrimStart | src/pages/Game.tsx:42 | Drops exactly the leading white space |
| Common.TrimEnd | src/pages/Game.tsx:42 | Drops exactly the trailing white space |
| Common.BlankIffAllSpace | src/pages/Game.tsx:42 | Text is blank after trimming exactly when every character is white space (the same test as `src/pages/Home.tsx:17` and `src/pages/Register.tsx:20`) |
| Common.ParseFormatRoundTrip | src/pages/Game.tsx:45 | Any integer written in decimal parses back to itself |
| Common.ParseInt | src/pages/Game.tsx:45-46 | Parsing fails exactly when no digit follows the optional sign; a minus sign gives a value not above 0 and no sign one not below 0; a string of digits alone reads as its decimal value |
| AuthContext.UsernameTaken | src/context/AuthContext.tsx:41 | Holds exactly when some account's username equals the new one ignoring case |
| AuthContext.RegisterOutcome | src/context/AuthContext.tsx:37-60 | A taken username fails first and a password shorter than four fails next, both leaving the list unchanged; success means exactly one account with the given details is appended; registration keeps usernames unique |
| AuthContext.AuthProvider.Register | src/context/AuthContext.tsx:37-60 | The account list and result are those of the registration rule; the session is untouched |
| AuthContext.FindUser | src/context/AuthContext.tsx:64-66 | None exactly when no account matches the username (ignoring case) and the password; otherwise the first matching account |
| AuthContext.LoginFindsTheAccount | src/context/AuthContext.tsx:62-79 | With unique usernames, signing in with an account's username and password finds that account |
| AuthContext.AuthProvider.Login | src/context/AuthContext.tsx:62-79 | Success exactly when some account matches, and the session and the stored session become the first match; a failure reports bad credentials and keeps the session |
| AuthContext.AuthProvider.Logout | src/context/AuthContext.tsx:81-84 | The session and the stored session are cleared, so the user is no longer signed in |
| AuthContext.AuthProvider.IsAuthenticated | src/context/AuthContext.tsx:87 | Signed in exactly when there is a session user |
| AuthContext.AuthProvider.constructor | src/context/AuthContext.tsx:20-26 | Mounting restores the stored session |
| RegisterPage.FirstProblem | src/pages/Register.tsx:20-36 | The checks run in the order blank, mismatch, too short, and the first failure alone decides the message; no message exactly when all pass |
| RegisterPage.EmailArgument | src/pages/Register.tsx:38 | An empty email is passed as absent, any other email as it is |
| RegisterPage.FailureMessage | src/pages/Register.tsx:43 | A non-empty returned message is shown as it is; an absent or empty one shows 'Kayıt başarısız'; never empty |
| RegisterPage.CheckedFormOnlyFailsOnTakenName | src/pages/Register.tsx:32-38 | A form that passes the page's checks is refused by the account table only when the username is taken |
| RegisterPage.RegisterForm.constructor | src/pages/Register.tsx:6-11 | The form opens with every field empty, no error and loading off |
| RegisterPage.RegisterForm.HandleSubmit | src/pages/Register.tsx:15-47 | A failed check shows its message without reaching the account table; otherwise it registers, with an empty email passed as absent, and shows the outcome; loading is off on every path |
| HomePage.NamedPlayers | src/pages/Home.tsx:22 | Keeps exactly the player names that are not blank, never growing the list |
| HomePage.NamedPlayersConcat | src/pages/Home.tsx:27 | Filtering works name by name, so the kept names keep their order |
| HomePage.NamedPlayersAllNamed | src/pages/Home.tsx:22 | When every name is filled in, all are kept, as typed |
| HomePage.StartTeams | src/pages/Home.tsx:17-29 | No teams when either name is blank; otherwise teams `team1` and `team2` in that order, names as typed, and as players exactly the non-blank names, in the order typed |
| HomePage.HomeForm.constructor | src/pages/Home.tsx:11-14 | The form opens with both team names empty and two empty player fields per team |
| HomePage.HomeForm.HandleStartGame | src/pages/Home.tsx:16-33 | A match starts exactly when both names are non-blank, with the teams above; otherwise the provider is untouched |
| HomePage.HomeForm.UpdatePlayer | src/pages/Home.tsx:35-45 | Replaces one position of the chosen team's players (team 1, or team 2 for any other number); everything else is unchanged |
| ResultPage.LastGame | src/pages/Result.tsx:11-17 | The last game of the list, or none (the page goes home) exactly when the list is empty |
| Outcome.TeamIndex | src/pages/Result.tsx:21 | The first team with the id, or -1 when none has it |
| Outcome.WinnerTeam | src/pages/Result.tsx:21 | None without a (truthy) winner; otherwise a team of the match whose id is the winner, found whenever one exists (also the history page, line 62) |
| Outcome.ShownAsDraw | src/pages/Result.tsx:22 | A match with a winner is shown as a draw exactly when its stored flag says so; one without a winner also when its first two totals are equal; with fewer than two scores and no flag, only when it has no scores (also the history page, line 63) |
| Outcome.IsWinnerTeam | src/pages/Result.tsx:69 | A team of the match flagged as the winner is the winner team the page shows (also the history page, line 94) |
| Outcome.IsDrawTeam | src/pages/Result.tsx:70 | A draw team is never also flagged as the winner; in a match shown as a draw the first score's team is a draw team, and a team without a score is one only when there are no scores (also the history page, line 95) |
| Outcome.OtherScoreIndex | src/pages/Result.tsx:27 | The first score of a team other than the given one (any score when there is none), or -1 |
| Outcome.ScoreDifference | src/pages/Result.tsx:26-28 | 0 on a draw; without a winner team, or without a score for it, the first score's total (0 if none); otherwise the first other team's total (0 if none) less the winner team's total |
| Outcome.FinishedScoreDifference | src/pages/Result.tsx:26-28 | For a finished two-team match, the margin is the gap between the two totals, 0 on a draw |
| Outcome.FinishedShownAsDraw | src/pages/Result.tsx:22 | For a finished match whose scores all carry a non-empty team id, the draw fallback agrees with the stored draw flag, and holds exactly when two teams share the lowest total (also the history page, line 63) |
| Outcome.FinishedTwoTeamFlags | src/pages/Result.tsx:69-70 | For a finished two-team match, a team is flagged as winner exactly when its total is strictly the lower, and as a draw team exactly when the totals are equal (also the history page, lines 94-95) |
| Outcome.ScoreIndex | src/pages/History.tsx:90-95 | The first score with the team's id, or -1 |
| Outcome.TeamCells | src/pages/History.tsx:130-141 | A team without a score shows 0, 0 and 0; otherwise its own score's three numbers (also the result page, lines 100-111) |
| Outcome.CellsAddUp | src/pages/History.tsx:130-141 | When totals are consistent, every card's total is its remaining points plus its penalties |
| HistoryPage.OfDate | src/pages/History.tsx:61 | Keeps exactly the games of one date |
| HistoryPage.InsertByDate | src/pages/History.tsx:61 | Inserting into a newest-first list keeps it newest first and adds exactly the one game |
| HistoryPage.SortByDateDesc | src/pages/History.tsx:61 | A newest-first permutation of the list; the list itself is not reordered |
| HistoryPage.InsertKeepsDateOrder | src/pages/History.tsx:61 | Insertion puts the game ahead of the games of its own date and keeps their order |
| HistoryPage.SortKeepsDateOrder | src/pages/History.tsx:61 | The sort is stable: the games of any date come out in stored order |
| HistoryPage.SortedListUnchanged | src/pages/History.tsx:61 | A list already newest first is shown as it is |
| Lifecycle.FreshMatchShownAsDraw | src/pages/History.tsx:63 | A just-started match with no teams or with two or more, if listed, is shown as a draw: no winner and equal zero totals (or no scores at all) |
| Lifecycle.SavedDraftShownAsDraw | src/context/GameContext.tsx:118-127 | A saved draft with equal first two totals is shown as a draw, because it has no winner |
| Lifecycle.TypeAndEnterText | src/pages/Game.tsx:100-121 | Typing a text that reads as a value and pressing Enter appends that value to the team's list for the field and leaves the field empty; the shown scores are untouched |
| Lifecycle.TypeAndEnter | src/pages/Game.tsx:100-121 | Typing a numeral and pressing Enter appends its value to the team's list for the field and leaves the field empty; the shown scores are untouched |
| Lifecycle.FinishedExampleStored | src/context/GameContext.tsx:72-93 | Finishing with totals -51 and 131 stores those totals, the first team as the winner and no draw |
| Lifecycle.FinishedExample | src/context/GameContext.tsx:72-93 | Finishing with totals -51 and 131 makes the first team the winner, not a draw, with a margin of 182 |
| Lifecycle.PlayedMatch | src/pages/Result.tsx:11-28 | A match set up, entered (-101 and 50 against 30 and a 101 penalty), finished and shown on the result page gives totals -51 and 131, the first team winning by 182 |
| Lifecycle.SaveThenFinish | src/context/GameContext.tsx:103 | Through the provider: saving and then finishing a new match lists it twice, ends with the finished match and clears the match in progress |

## Left out

- Browser storage and JSON. Reading and writing `localStorage` through `JSON.parse`/`stringify` is modelled as fields: the store map and the account list. Malformed stored JSON is not modelled.
- Clock and date handling. `Date.now()` ids, ISO date strings and locale date formatting become caller-supplied ids and integer timestamps. The history sort compares those integers, so an unparsable date (NaN in the comparator) is not modelled.
- React plumbing: rendering, JSX, styling, hooks and effect scheduling, `setState` batching, navigation and console logging. Effects are methods the caller invokes. Navigation is a returned flag.
- Promises: `register` and `login` are asynchronous but are modelled as synchronous.
- `parseInt`: modelled as a decimal parser of an optional sign plus the leading digit run. Hexadecimal prefixes and precision above 2^53 are not modelled.
- Case and white space: `toLowerCase` is modelled for ASCII letters only. `trim` is modelled for ASCII white space and the no-break space only.
- Password length: it is counted in characters, not UTF-16 code units.
- Login page: `src/pages/Login.tsx` is not part of this model. Its only logic is a blank-field check before calling `login`.
- Concurrency: races between browser tabs sharing one storage list are not modelled.
- Winner values: `undefined` and `null` are one absent value, because they behave alike both under the truthiness test and when a team id is compared with the winner (`src/pages/Result.tsx:69`).
- GameContext.GameProvider.FinishGame: requires a non-empty score list when a match is in progress and a user is set. The source reads the first element of the sorted scores and would throw on an empty list.
- HomePage.HomeForm.UpdatePlayer: requires an index inside the chosen team's list. The page only calls it for existing fields; JavaScript would extend the array for an index past the end.
- Outcome.IsDrawTeam: compares each team with the first score's total, as the pages do. With three or more teams it can miss tied teams; the set-up form only builds two-team matches, so no lemma covers more teams.
- Outcome.FinishedTwoTeamFlags: covers only matches built as the set-up form builds them (two teams, ids distinct and non-empty, scores in team order).
- Outcome.FinishedScoreDifference: same restriction as Outcome.FinishedTwoTeamFlags.
- Lifecycle.PlayedMatch: the user id `aylin` and the match id are fixed example values. The properties are proved in general in `GameContext` and `Outcome`.
