/** The history page (`History`): the user's games listed newest first, from a
    sorted copy of the list; each card is classified by `Outcome`. Dates are
    the games' timestamps as integers. */
module HistoryPage {
  import opened Types

  /** Newest first: no game is older than the one after it. */
  predicate NewestFirst(gs: seq<Game>) {
    forall i, j :: 0 <= i < j < |gs| ==> gs[i].date >= gs[j].date
  }

  /** The games of one date, in list order. */
  function OfDate(gs: seq<Game>, date: int): (r: seq<Game>)
    ensures forall g :: g in r <==> g in gs && g.date == date
  {
    if gs == [] then []
    else (if gs[0].date == date then [gs[0]] else []) + OfDate(gs[1..], date)
  }

  /** A game no older than the head of a newest-first list can go in front. */
  lemma PrependNewest(g: Game, s: seq<Game>)
    requires NewestFirst(s) && (s == [] || s[0].date <= g.date)
    ensures NewestFirst([g] + s)
  {
    var r := [g] + s;
    forall i, j | 0 <= i < j < |r| ensures r[i].date >= r[j].date {
      if i == 0 && j > 1 {
        assert r[j] == s[j - 1] && s[0].date >= s[j - 1].date;
      }
    }
  }

  /** Places `g` in a newest-first list ahead of every game not newer than it. */
  function InsertByDate(g: Game, sorted: seq<Game>): (r: seq<Game>)
    requires NewestFirst(sorted)
    ensures NewestFirst(r)
    ensures multiset(r) == multiset(sorted) + multiset{g}
    ensures r[0] == g || (sorted != [] && r[0] == sorted[0])
  {
    if sorted == [] || sorted[0].date <= g.date then
      PrependNewest(g, sorted);
      [g] + sorted
    else
      var tail := sorted[1..];
      assert NewestFirst(tail);
      var rest := InsertByDate(g, tail);
      assert sorted == [sorted[0]] + tail;
      assert tail != [] ==> sorted[0].date >= tail[0].date;
      PrependNewest(sorted[0], rest);
      [sorted[0]] + rest
  }

  /** `[...games].sort((a, b) => b.date - a.date)`: a copy of the list, newest
      first; the sort is stable, so games of the same date keep their order. */
  function SortByDateDesc(gs: seq<Game>): (r: seq<Game>)
    ensures NewestFirst(r)
    ensures multiset(r) == multiset(gs)
  {
    if gs == [] then []
    else
      assert gs == [gs[0]] + gs[1..];
      InsertByDate(gs[0], SortByDateDesc(gs[1..]))
  }

  lemma OfDateCons(g: Game, s: seq<Game>, date: int)
    ensures OfDate([g] + s, date) == (if g.date == date then [g] else []) + OfDate(s, date)
  {
    assert ([g] + s)[0] == g && ([g] + s)[1..] == s;
  }

  /** A game older than the head goes in after it. */
  lemma InsertAfterHead(g: Game, sorted: seq<Game>)
    requires NewestFirst(sorted) && sorted != [] && sorted[0].date > g.date
    ensures NewestFirst(sorted[1..])
    ensures InsertByDate(g, sorted) == [sorted[0]] + InsertByDate(g, sorted[1..])
  {
    assert NewestFirst(sorted[1..]);
  }

  /** Inserting a game changes the games of its own date only by putting it
      in front of them. */
  lemma {:induction false} InsertKeepsDateOrder(g: Game, sorted: seq<Game>, date: int)
    requires NewestFirst(sorted)
    ensures OfDate(InsertByDate(g, sorted), date) ==
      (if g.date == date then [g] else []) + OfDate(sorted, date)
  {
    if sorted == [] || sorted[0].date <= g.date {
      OfDateCons(g, sorted, date);
    } else {
      var tail := sorted[1..];
      InsertAfterHead(g, sorted);
      InsertKeepsDateOrder(g, tail, date);
      OfDateSwap(sorted[0], InsertByDate(g, tail), tail, g, date);
      assert [sorted[0]] + tail == sorted;
    }
  }

  /** Putting `x` in front of both sides of the step above keeps it, as long as
      `x` and `g` are not both of that date. */
  lemma OfDateSwap(x: Game, rest: seq<Game>, tail: seq<Game>, g: Game, date: int)
    requires x.date != date || g.date != date
    requires OfDate(rest, date) == (if g.date == date then [g] else []) + OfDate(tail, date)
    ensures OfDate([x] + rest, date) == (if g.date == date then [g] else []) + OfDate([x] + tail, date)
  {
    OfDateCons(x, rest, date);
    OfDateCons(x, tail, date);
  }

  /** The sort is stable: the games of any one date come out in the order they
      were stored. */
  lemma {:induction false} SortKeepsDateOrder(gs: seq<Game>, date: int)
    ensures OfDate(SortByDateDesc(gs), date) == OfDate(gs, date)
  {
    if gs != [] {
      SortKeepsDateOrder(gs[1..], date);
      InsertKeepsDateOrder(gs[0], SortByDateDesc(gs[1..]), date);
    }
  }

  /** A list already newest first is shown as it is. */
  lemma {:induction false} SortedListUnchanged(gs: seq<Game>)
    requires NewestFirst(gs)
    ensures SortByDateDesc(gs) == gs
  {
    if gs != [] {
      assert NewestFirst(gs[1..]);
      SortedListUnchanged(gs[1..]);
      if |gs| > 1 {
        assert gs[1..][0].date <= gs[0].date;
      }
      assert [gs[0]] + gs[1..] == gs;
    }
  }
}
