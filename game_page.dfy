/** The score-entry screen (`Game` page): per team, two ordered lists of entered
    values (remaining points and penalties), the text typed into each entry
    field, and the scores derived from the lists by summing them. */
module GamePage {
  import opened Common
  import opened Types
  import GameContext

  /** The two tracks a value can be entered into. */
  datatype Field = RemainingPoints | Penalties {
    function Other(): Field {
      match this
      case RemainingPoints => Penalties
      case Penalties => RemainingPoints
    }
  }

  /** The values entered for one team, in entry order. */
  datatype TeamInputs = TeamInputs(remainingPoints: seq<int>, penalties: seq<int>) {
    function Track(f: Field): seq<int> {
      match f
      case RemainingPoints => remainingPoints
      case Penalties => penalties
    }

    function Push(f: Field, v: int): (r: TeamInputs)
      ensures r.Track(f) == Track(f) + [v] && r.Track(f.Other()) == Track(f.Other())
    {
      match f
      case RemainingPoints => this.(remainingPoints := remainingPoints + [v])
      case Penalties => this.(penalties := penalties + [v])
    }
  }

  /** The text currently typed into one team's two entry fields. */
  datatype InputValues = InputValues(remainingPoints: string, penalties: string) {
    function Text(f: Field): string {
      match f
      case RemainingPoints => remainingPoints
      case Penalties => penalties
    }

    function WithText(f: Field, t: string): (r: InputValues)
      ensures r.Text(f) == t && r.Text(f.Other()) == Text(f.Other())
    {
      match f
      case RemainingPoints => this.(remainingPoints := t)
      case Penalties => this.(penalties := t)
    }

    /** Writing a field twice leaves only the second text. */
    lemma WithTextTwice(f: Field, t: string, u: string)
      ensures WithText(f, t).WithText(f, u) == WithText(f, u)
    {
      match f
      case RemainingPoints =>
      case Penalties =>
    }
  }

  const NoInputs := TeamInputs([], [])
  const NoText := InputValues("", "")

  /** `prev[teamId] || { remainingPoints: [], penalties: [] }` */
  function InputsOf(inputs: map<string, TeamInputs>, teamId: string): TeamInputs {
    if teamId in inputs then inputs[teamId] else NoInputs
  }

  /** `prev[teamId] || { remainingPoints: '', penalties: '' }` */
  function ValuesOf(values: map<string, InputValues>, teamId: string): InputValues {
    if teamId in values then values[teamId] else NoText
  }

  /** `inputValues[teamId]?.[field] || ''` */
  function TextOf(values: map<string, InputValues>, teamId: string, field: Field): string {
    ValuesOf(values, teamId).Text(field)
  }

  // ---------------------------------------------------------------------------
  // Sums

  /** `values.reduce((sum, val) => sum + val, 0)`, folding from the left. */
  function Sum(s: seq<int>): (r: int)
    ensures (forall i :: 0 <= i < |s| ==> s[i] >= 0) ==> r >= 0
  {
    if s == [] then 0 else Sum(s[..|s| - 1]) + s[|s| - 1]
  }

  lemma {:induction false} SumConcat(a: seq<int>, b: seq<int>)
    ensures Sum(a + b) == Sum(a) + Sum(b)
  {
    if b == [] {
      assert a + b == a;
    } else {
      assert (a + b)[..|a + b| - 1] == a + b[..|b| - 1];
      SumConcat(a, b[..|b| - 1]);
    }
  }

  /** Taking one value out of a list takes it out of its multiset and its sum. */
  lemma SumRemove(b: seq<int>, i: nat)
    requires i < |b|
    ensures var b' := b[..i] + b[i + 1..];
      multiset(b) == multiset(b') + multiset{b[i]} && Sum(b) == Sum(b') + b[i]
  {
    assert b == b[..i] + [b[i]] + b[i + 1..];
    SumConcat(b[..i] + [b[i]], b[i + 1..]);
    SumConcat(b[..i], [b[i]]);
    SumConcat(b[..i], b[i + 1..]);
  }

  /** Folding from the left is folding from the right: the first value plus
      the sum of the rest. */
  lemma SumFront(s: seq<int>)
    requires s != []
    ensures Sum(s) == s[0] + Sum(s[1..])
  {
    assert s == [s[0]] + s[1..];
    SumConcat([s[0]], s[1..]);
    assert Sum([s[0]]) == Sum([]) + s[0];
  }

  /** Only the values entered count, not the order they were entered in. */
  lemma {:induction false} SumPermutation(a: seq<int>, b: seq<int>)
    requires multiset(a) == multiset(b)
    ensures Sum(a) == Sum(b)
    decreases |a|
  {
    if a == [] {
      assert |b| == |multiset(b)| == 0;
    } else {
      var x := a[|a| - 1];
      var a' := a[..|a| - 1];
      assert a == a' + [x];
      assert multiset(a) == multiset(a') + multiset{x};
      assert x in multiset(b);
      var i :| 0 <= i < |b| && b[i] == x;
      var b' := b[..i] + b[i + 1..];
      SumRemove(b, i);
      assert multiset(a') == multiset(a) - multiset{x} == multiset(b) - multiset{x} == multiset(b');
      SumPermutation(a', b');
    }
  }

  // ---------------------------------------------------------------------------
  // Entering values

  /** The value `addValue` takes from typed text: the trimmed text parsed as an
      integer; blank or unparsable text gives none. */
  function Entry(text: string): (r: Option<int>)
    ensures IsBlank(text) ==> r == None
    ensures r == ParseInt(Trim(text))
  {
    var trimmed := Trim(text);
    if trimmed == "" then None else ParseInt(trimmed)
  }

  /** White space around the typed text does not change what is entered. */
  lemma EntryIgnoresPadding(text: string)
    ensures Entry(Trim(text)) == Entry(text)
  {
    TrimIdempotent(text);
  }

  /** The entered lists after `addValue(teamId, field, text)`: the parsed value
      appended to that team's list for that field, and nothing else changed;
      unchanged altogether when the text gives no value. */
  function AddedInputs(inputs: map<string, TeamInputs>, teamId: string, field: Field, text: string)
    : (r: map<string, TeamInputs>)
    ensures Entry(text) == None ==> r == inputs
    ensures Entry(text) != None ==>
      r.Keys == inputs.Keys + {teamId} &&
      r[teamId].Track(field) == InputsOf(inputs, teamId).Track(field) + [Entry(text).value] &&
      r[teamId].Track(field.Other()) == InputsOf(inputs, teamId).Track(field.Other())
    ensures forall t :: t in inputs && t != teamId ==> r[t] == inputs[t]
  {
    match Entry(text)
    case None => inputs
    case Some(v) => inputs[teamId := InputsOf(inputs, teamId).Push(field, v)]
  }

  /** A text that parses to `v` appends exactly `v`. */
  lemma AddedEntry(inputs: map<string, TeamInputs>, teamId: string, field: Field, text: string, v: int)
    requires Entry(text) == Some(v)
    ensures AddedInputs(inputs, teamId, field, text) == inputs[teamId := InputsOf(inputs, teamId).Push(field, v)]
  {
  }

  /** The entry fields after `addValue`: the field that was used is emptied. */
  function ClearedValues(values: map<string, InputValues>, teamId: string, field: Field, text: string)
    : (r: map<string, InputValues>)
    ensures Entry(text) == None ==> r == values
    ensures Entry(text) != None ==>
      r.Keys == values.Keys + {teamId} && r[teamId].Text(field) == "" &&
      r[teamId].Text(field.Other()) == ValuesOf(values, teamId).Text(field.Other())
    ensures forall t :: t in values && t != teamId ==> r[t] == values[t]
  {
    if Entry(text) == None then values else values[teamId := ValuesOf(values, teamId).WithText(field, "")]
  }

  /** A text that gives a value empties the field it was typed into. */
  lemma ClearedEntry(values: map<string, InputValues>, teamId: string, field: Field, text: string)
    requires Entry(text) != None
    ensures ClearedValues(values, teamId, field, text) == values[teamId := ValuesOf(values, teamId).WithText(field, "")]
  {
  }

  /** The quick-entry buttons: closing a hand, a double close, a "head" and the
      standard penalty. */
  datatype Preset = Close | DoubleClose | Head | Penalty {
    function Target(): Field {
      if this == Penalty then Penalties else RemainingPoints
    }

    /** The value the button stands for. */
    function Value(): int {
      match this
      case Close => -101
      case DoubleClose => -202
      case Head => 808
      case Penalty => 101
    }

    /** The text the button hands to `addValue`. */
    function Text(): string {
      match this
      case Close => "-101"
      case DoubleClose => "-202"
      case Head => "808"
      case Penalty => "101"
    }
  }

  /** Text that neither starts nor ends with white space is its own trim. */
  lemma TrimUnpadded(s: string)
    requires s != [] && !IsSpace(s[0]) && !IsSpace(s[|s| - 1])
    ensures Trim(s) == s
  {
    assert TrimStart(s) == s;
  }

  /** A numeral typed as it is printed is entered as its value. */
  lemma EntryOfNumeral(n: int)
    ensures Entry(FormatInt(n)) == Some(n)
  {
    var s := FormatInt(n);
    var d := Digits(if n < 0 then -n else n);
    assert s == d || s == "-" + d;
    assert IsDigit(d[0]) && IsDigit(d[|d| - 1]);
    assert s[|s| - 1] == d[|d| - 1];
    TrimUnpadded(s);
    ParseFormatRoundTrip(n);
  }

  /** The buttons enter -101, -202 and 808 as remaining points and 101 as a penalty. */
  lemma PresetValue(p: Preset)
    ensures p.Target() == (if p == Penalty then Penalties else RemainingPoints)
    ensures Entry(p.Text()) == Some(p.Value())
  {
    match p
    case Close =>
      assert FormatInt(-101) == "-101";
      EntryOfNumeral(-101);
    case DoubleClose =>
      assert FormatInt(-202) == "-202";
      EntryOfNumeral(-202);
    case Head =>
      assert FormatInt(808) == "808";
      EntryOfNumeral(808);
    case Penalty =>
      assert FormatInt(101) == "101";
      EntryOfNumeral(101);
  }

  // ---------------------------------------------------------------------------
  // Recomputing the scores

  /** `updated` is what the recompute effect derives from `scores`: a score whose
      team has entered lists takes their sums and the total of the two, every
      other score is kept, and team ids and order never change. */
  ghost predicate RecomputedFrom(updated: seq<GameScore>, scores: seq<GameScore>, inputs: map<string, TeamInputs>) {
    |updated| == |scores| &&
    forall i :: 0 <= i < |scores| ==>
      updated[i].teamId == scores[i].teamId &&
      (scores[i].teamId !in inputs ==> updated[i] == scores[i]) &&
      (scores[i].teamId in inputs ==>
        updated[i].remainingPoints == Sum(inputs[scores[i].teamId].remainingPoints) &&
        updated[i].penalties == Sum(inputs[scores[i].teamId].penalties) &&
        updated[i].totalScore == updated[i].remainingPoints + updated[i].penalties)
  }

  /** `scores.map(...)` of the recompute effect. */
  method RecomputedScores(scores: seq<GameScore>, inputs: map<string, TeamInputs>) returns (updated: seq<GameScore>)
    ensures RecomputedFrom(updated, scores, inputs)
  {
    updated := [];
    var i := 0;
    while i < |scores|
      invariant 0 <= i <= |scores|
      invariant RecomputedFrom(updated, scores[..i], inputs)
    {
      var score := scores[i];
      if score.teamId in inputs {
        var entered := inputs[score.teamId];
        var totalRemaining := Sum(entered.remainingPoints);
        var totalPenalties := Sum(entered.penalties);
        score := score.(remainingPoints := totalRemaining, penalties := totalPenalties,
                        totalScore := totalRemaining + totalPenalties);
      }
      updated := updated + [score];
      i := i + 1;
    }
    assert scores[..i] == scores;
  }

  /** When every team has entered lists, the derived scores are exactly those
      the game provider keeps: recomputing their totals changes nothing. */
  lemma RecomputedConsistent(updated: seq<GameScore>, scores: seq<GameScore>, inputs: map<string, TeamInputs>)
    requires RecomputedFrom(updated, scores, inputs)
    requires forall i :: 0 <= i < |scores| ==> scores[i].teamId in inputs
    ensures GameContext.TotalsConsistent(updated)
    ensures GameContext.WithTotals(updated) == updated
  {
    forall i | 0 <= i < |updated|
      ensures updated[i].totalScore == updated[i].remainingPoints + updated[i].penalties
    {
      assert scores[i].teamId in inputs;
    }
    GameContext.WithTotalsIdempotent(updated);
  }

  // ---------------------------------------------------------------------------
  // The page's state

  class GameView {
    var scores: seq<GameScore>
    var teamInputs: map<string, TeamInputs>
    var inputValues: map<string, InputValues>

    constructor ()
      ensures scores == [] && teamInputs == map[] && inputValues == map[]
    {
      scores := [];
      teamInputs := map[];
      inputValues := map[];
    }

    /** The mount effect: without a match in progress the page goes home;
        otherwise it shows the match's scores and gives every team empty lists
        and empty entry fields. */
    method Open(currentGame: Option<Game>) returns (goHome: bool)
      modifies this
      ensures goHome <==> currentGame == None
      ensures goHome ==> scores == old(scores) && teamInputs == old(teamInputs) && inputValues == old(inputValues)
      ensures !goHome ==>
        var teams := currentGame.value.teams;
        scores == currentGame.value.scores &&
        teamInputs.Keys == inputValues.Keys == (set i | 0 <= i < |teams| :: teams[i].id) &&
        (forall t :: t in teamInputs ==> teamInputs[t] == NoInputs) &&
        (forall t :: t in inputValues ==> inputValues[t] == NoText)
    {
      if currentGame == None {
        return true;
      }
      var teams := currentGame.value.teams;
      scores := currentGame.value.scores;
      var initialInputs: map<string, TeamInputs> := map[];
      var initialValues: map<string, InputValues> := map[];
      var i := 0;
      while i < |teams|
        invariant 0 <= i <= |teams|
        invariant initialInputs.Keys == initialValues.Keys == (set j | 0 <= j < i :: teams[j].id)
        invariant forall t :: t in initialInputs ==> initialInputs[t] == NoInputs
        invariant forall t :: t in initialValues ==> initialValues[t] == NoText
      {
        initialInputs := initialInputs[teams[i].id := NoInputs];
        initialValues := initialValues[teams[i].id := NoText];
        i := i + 1;
      }
      teamInputs := initialInputs;
      inputValues := initialValues;
      return false;
    }

    /** `addValue`: appends the value of the typed text to the team's list and
        empties the field; blank or unparsable text changes nothing. */
    method AddValue(teamId: string, field: Field, value: string)
      modifies this
      ensures teamInputs == AddedInputs(old(teamInputs), teamId, field, value)
      ensures inputValues == ClearedValues(old(inputValues), teamId, field, value)
      ensures scores == old(scores)
    {
      var trimmedValue := Trim(value);
      if trimmedValue == "" {
        return;
      }
      var numValue := ParseInt(trimmedValue);
      if numValue == None {
        return;
      }
      var currentInputs := InputsOf(teamInputs, teamId);
      teamInputs := teamInputs[teamId := currentInputs.Push(field, numValue.value)];
      inputValues := inputValues[teamId := ValuesOf(inputValues, teamId).WithText(field, "")];
    }

    /** `handleInputChange`: the field shows what was typed. */
    method ChangeInput(teamId: string, field: Field, value: string)
      modifies this
      ensures inputValues == old(inputValues)[teamId := ValuesOf(old(inputValues), teamId).WithText(field, value)]
      ensures scores == old(scores) && teamInputs == old(teamInputs)
    {
      inputValues := inputValues[teamId := ValuesOf(inputValues, teamId).WithText(field, value)];
    }

    /** `handleKeyPress` (and the "+" button, which runs the same test): Enter
        adds the field's current text when it is not blank; any other key does
        nothing. */
    method HandleKeyPress(key: string, teamId: string, field: Field)
      modifies this
      ensures key != "Enter" || IsBlank(TextOf(old(inputValues), teamId, field)) ==>
        teamInputs == old(teamInputs) && inputValues == old(inputValues)
      ensures key == "Enter" ==>
        teamInputs == AddedInputs(old(teamInputs), teamId, field, TextOf(old(inputValues), teamId, field)) &&
        inputValues == ClearedValues(old(inputValues), teamId, field, TextOf(old(inputValues), teamId, field))
      ensures scores == old(scores)
    {
      if key == "Enter" {
        var currentValue := TextOf(inputValues, teamId, field);
        if Trim(currentValue) != "" {
          AddValue(teamId, field, currentValue);
        }
      }
    }

    /** A quick-entry button: enters the preset's fixed value and, like any
        entry, empties the field of that track. */
    method PressPreset(teamId: string, preset: Preset)
      modifies this
      ensures teamInputs == old(teamInputs)[teamId := InputsOf(old(teamInputs), teamId).Push(preset.Target(), preset.Value())]
      ensures inputValues == old(inputValues)[teamId := ValuesOf(old(inputValues), teamId).WithText(preset.Target(), "")]
      ensures scores == old(scores)
    {
      var text := preset.Text();
      PresetValue(preset);
      AddValue(teamId, preset.Target(), text);
    }

    /** The recompute effect: unless there are no entered lists or no scores,
        derives the scores from the lists, shows them and hands them to the game
        provider. */
    method Refresh(provider: GameContext.GameProvider)
      modifies this, provider
      ensures teamInputs == old(teamInputs) && inputValues == old(inputValues)
      ensures provider.games == old(provider.games) && provider.store == old(provider.store)
      ensures |old(teamInputs)| == 0 || |old(scores)| == 0 ==>
        scores == old(scores) && provider.currentGame == old(provider.currentGame)
      ensures |old(teamInputs)| != 0 && |old(scores)| != 0 ==>
        RecomputedFrom(scores, old(scores), teamInputs) &&
        (old(provider.currentGame) == None ==> provider.currentGame == None) &&
        (old(provider.currentGame) != None ==>
          provider.currentGame == Some(old(provider.currentGame).value.(scores := GameContext.WithTotals(scores))))
    {
      if |teamInputs| == 0 || |scores| == 0 {
        return;
      }
      var updatedScores := RecomputedScores(scores, teamInputs);
      scores := updatedScores;
      provider.UpdateScores(updatedScores);
    }
  }
}
