/**
 * The live leaderboard: the periodic tick that moves every score by a
 * bounded random amount, sorts stably by descending score and renumbers
 * the ranks; the looping list, the top-three rule and the keyboard
 * selection of an entry.
 */
module Leaderboard {
  import opened Wrappers
  import opened Seqs

  datatype Entry = Entry(id: string, name: string, handle: string, role: string, score: int, rank: int)

  /** `Math.floor(Math.random() * 10)`: the random draws a tick consumes, one per entry, each in 0..9. */
  predicate ValidDraws(draws: seq<int>, n: int)
  {
    |draws| == n && forall k :: 0 <= k < |draws| ==> 0 <= draws[k] < 10
  }

  /** The first step of a tick: entry `k` gains `draws[k] - 3` points; nothing else about it changes. */
  function Bump(data: seq<Entry>, draws: seq<int>): (r: seq<Entry>)
    requires ValidDraws(draws, |data|)
    ensures |r| == |data|
    ensures forall k :: 0 <= k < |r| ==> -3 <= r[k].score - data[k].score <= 6
    ensures forall k :: 0 <= k < |r| ==> r[k].(score := data[k].score) == data[k]
  {
    seq(|data|, k requires 0 <= k < |data| => data[k].(score := data[k].score + draws[k] - 3))
  }

  /** Non-increasing scores from the top of the list down. */
  ghost predicate SortedByScore(s: seq<Entry>)
  {
    forall i, j :: 0 <= i < j < |s| ==> s[i].score >= s[j].score
  }

  /** Put `x` in front of the first entry that does not score more than it. */
  function InsertByScore(x: Entry, s: seq<Entry>): (r: seq<Entry>)
    ensures multiset(r) == multiset(s) + multiset{x}
    ensures |r| == |s| + 1 && (r[0] == x || (s != [] && r[0] == s[0]))
  {
    if s == [] || s[0].score <= x.score then [x] + s
    else
      assert s == [s[0]] + s[1..];
      [s[0]] + InsertByScore(x, s[1..])
  }

  /** Inserting into a list sorted by descending score keeps it sorted. */
  lemma {:induction false} InsertKeepsSorted(x: Entry, s: seq<Entry>)
    requires SortedByScore(s)
    ensures SortedByScore(InsertByScore(x, s))
  {
    if s != [] && s[0].score > x.score {
      var rest := InsertByScore(x, s[1..]);
      InsertKeepsSorted(x, s[1..]);
      assert rest[0].score <= s[0].score;
      assert InsertByScore(x, s) == [s[0]] + rest;
    }
  }

  /**
   * `sort((a, b) => b.score - a.score)`: a stable sort by descending
   * score, written as an insertion sort that keeps earlier entries ahead
   * of later ones with the same score.
   */
  function SortByScore(s: seq<Entry>): (r: seq<Entry>)
    ensures multiset(r) == multiset(s)
    ensures |r| == |s|
    ensures SortedByScore(r)
  {
    if s == [] then []
    else
      assert s == [s[0]] + s[1..];
      InsertKeepsSorted(s[0], SortByScore(s[1..]));
      InsertByScore(s[0], SortByScore(s[1..]))
  }

  function ScoreIs(v: int): Entry -> bool
  {
    (e: Entry) => e.score == v
  }

  /** Inserting `x` puts it ahead of every entry of the same score and leaves the other scores' runs alone. */
  lemma {:induction false} InsertKeepsTies(x: Entry, s: seq<Entry>, v: int)
    ensures Filter(InsertByScore(x, s), ScoreIs(v)) == (if x.score == v then [x] else []) + Filter(s, ScoreIs(v))
  {
    if s != [] && s[0].score > x.score {
      InsertKeepsTies(x, s[1..], v);
    }
  }

  /** Stability: for every score, the entries with that score come out in the order they went in. */
  lemma {:induction false} SortIsStable(s: seq<Entry>, v: int)
    ensures Filter(SortByScore(s), ScoreIs(v)) == Filter(s, ScoreIs(v))
  {
    if s != [] {
      SortIsStable(s[1..], v);
      InsertKeepsTies(s[0], SortByScore(s[1..]), v);
    }
  }

  /** The last step of a tick: each entry's rank becomes its position plus one. */
  function Rerank(s: seq<Entry>): (r: seq<Entry>)
    ensures |r| == |s|
    ensures forall k :: 0 <= k < |r| ==> r[k].rank == k + 1 && r[k].(rank := s[k].rank) == s[k]
  {
    seq(|s|, k requires 0 <= k < |s| => s[k].(rank := k + 1))
  }

  /** One interval tick: bump, sort, renumber. */
  function Tick(data: seq<Entry>, draws: seq<int>): (r: seq<Entry>)
    requires ValidDraws(draws, |data|)
    ensures |r| == |data|
  {
    var b := Bump(data, draws);
    assert |SortByScore(b)| == |b| == |data|;
    Rerank(SortByScore(b))
  }

  /** The entry ids, in list order. */
  function Ids(s: seq<Entry>): seq<string>
  {
    seq(|s|, k requires 0 <= k < |s| => s[k].id)
  }

  /** `e` is an entry of `data` with only its rank changed and its score moved by -3 to +6. */
  ghost predicate ComesFrom(e: Entry, data: seq<Entry>)
  {
    exists k :: 0 <= k < |data| && e.(score := data[k].score, rank := data[k].rank) == data[k]
                && -3 <= e.score - data[k].score <= 6
  }

  /** The ids of a list with `x` in front. */
  lemma IdsCons(x: Entry, s: seq<Entry>)
    ensures multiset(Ids([x] + s)) == multiset(Ids(s)) + multiset{x.id}
  {
    assert Ids([x] + s) == [x.id] + Ids(s);
  }

  /** Inserting an entry adds its id to the ids. */
  lemma {:induction false} IdsOfInsert(x: Entry, s: seq<Entry>)
    ensures multiset(Ids(InsertByScore(x, s))) == multiset(Ids(s)) + multiset{x.id}
  {
    if s == [] || s[0].score <= x.score {
      IdsCons(x, s);
    } else {
      var rest := InsertByScore(x, s[1..]);
      IdsOfInsert(x, s[1..]);
      IdsCons(s[0], rest);
      IdsCons(s[0], s[1..]);
      assert [s[0]] + s[1..] == s;
    }
  }

  /** Sorting permutes the ids. */
  lemma {:induction false} IdsOfSort(s: seq<Entry>)
    ensures multiset(Ids(SortByScore(s))) == multiset(Ids(s))
  {
    if s != [] {
      var rest := SortByScore(s[1..]);
      assert SortByScore(s) == InsertByScore(s[0], rest);
      IdsOfSort(s[1..]);
      IdsOfInsert(s[0], rest);
      IdsCons(s[0], s[1..]);
      assert [s[0]] + s[1..] == s;
    }
  }

  /** A tick lists the same players: the multiset of ids does not change. */
  lemma TickKeepsPlayers(data: seq<Entry>, draws: seq<int>)
    requires ValidDraws(draws, |data|)
    ensures multiset(Ids(Tick(data, draws))) == multiset(Ids(data))
  {
    var b := Bump(data, draws);
    var s := SortByScore(b);
    assert Ids(Tick(data, draws)) == Ids(s);
    IdsOfSort(b);
    assert Ids(b) == Ids(data);
  }

  /** Every entry after a tick is an old entry with a new rank and its score moved by -3 to +6. */
  lemma TickEntriesComeFrom(data: seq<Entry>, draws: seq<int>)
    requires ValidDraws(draws, |data|)
    ensures forall i :: 0 <= i < |data| ==> ComesFrom(Tick(data, draws)[i], data)
  {
    var b := Bump(data, draws);
    var s := SortByScore(b);
    var r := Tick(data, draws);
    forall i | 0 <= i < |data|
      ensures ComesFrom(r[i], data)
    {
      assert s[i] in multiset(b);
      var k :| 0 <= k < |b| && b[k] == s[i];
      assert r[i].(rank := s[i].rank) == s[i];
      assert r[i].(score := data[k].score, rank := data[k].rank) == data[k];
    }
  }

  /**
   * A tick keeps the same entries: the same number, the same ids, and
   * every listed entry is an old entry whose score moved by -3 to +6;
   * the list is sorted by descending score and ranked 1..n.
   */
  lemma TickProperties(data: seq<Entry>, draws: seq<int>)
    requires ValidDraws(draws, |data|)
    ensures |Tick(data, draws)| == |data|
    ensures multiset(Ids(Tick(data, draws))) == multiset(Ids(data))
    ensures forall i :: 0 <= i < |data| ==> Tick(data, draws)[i].rank == i + 1
    ensures SortedByScore(Tick(data, draws))
    ensures forall i :: 0 <= i < |data| ==> ComesFrom(Tick(data, draws)[i], data)
  {
    TickKeepsPlayers(data, draws);
    TickEntriesComeFrom(data, draws);
  }

  /** After a tick, the top-three styling falls on exactly the first three places. */
  lemma TopThreeAfterTick(data: seq<Entry>, draws: seq<int>)
    requires ValidDraws(draws, |data|)
    ensures forall i :: 0 <= i < |data| ==> (IsTopThree(Tick(data, draws)[i]) <==> i < 3)
  {
    TickProperties(data, draws);
  }

  /** The ring, the rank badge and the detail panel's highlight apply to ranks 1 to 3. */
  predicate IsTopThree(e: Entry)
  {
    e.rank <= 3
  }

  datatype TimeFilter = Today | Week | All

  /** `filteredData`: the time filter is a placeholder that keeps every entry. */
  function FilteredData(data: seq<Entry>, timeFilter: TimeFilter): (r: seq<Entry>)
    ensures r == data
  {
    var keep := (e: Entry) => true;
    FilterKeepsAll(data, keep);
    Filter(data, keep)
  }

  /** `extendedData`: three copies back to back, so the scroll can loop. */
  function ExtendedData(filtered: seq<Entry>): (r: seq<Entry>)
    ensures |r| == 3 * |filtered|
    ensures forall i :: 0 <= i < |r| ==> r[i] == filtered[i % |filtered|]
  {
    var r := filtered + filtered + filtered;
    var n := |filtered|;
    assert forall i :: 0 <= i < |r| ==> r[i] == filtered[i % n] by {
      forall i | 0 <= i < |r| ensures r[i] == filtered[i % n] {
        if n <= i < 2 * n {
          ModSecondCopy(i, n);
        } else if 2 * n <= i {
          ModThirdCopy(i, n);
        }
      }
    }
    r
  }

  /** A position in the second copy of a list of length `n` is offset `i - n` into it. */
  lemma ModSecondCopy(i: int, n: int)
    requires n <= i < 2 * n
    ensures i % n == i - n
  {
  }

  /** A position in the third copy of a list of length `n` is offset `i - 2n` into it. */
  lemma ModThirdCopy(i: int, n: int)
    requires 2 * n <= i < 3 * n
    ensures i % n == i - 2 * n
  {
  }

  /** The leaderboard's state. */
  class LiveLeaderboard {
    var data: seq<Entry>
    var isPlaying: bool
    var timeFilter: TimeFilter
    var selectedEntry: Option<Entry>

    constructor (initial: seq<Entry>)
      ensures data == initial && isPlaying && timeFilter == All && selectedEntry == None
    {
      data, isPlaying, timeFilter, selectedEntry := initial, true, All, None;
    }

    /** The interval callback; it runs whether or not the board is playing. */
    method OnInterval(draws: seq<int>)
      requires ValidDraws(draws, |data|)
      modifies this`data
      ensures data == Tick(old(data), draws)
      ensures SortedByScore(data) && |data| == |old(data)|
    {
      TickProperties(data, draws);
      data := Tick(data, draws);
    }

    /** Enter or Space on an entry opens its detail panel; other keys do nothing. */
    method HandleKeyDown(key: string, entry: Entry)
      modifies this`selectedEntry
      ensures key == "Enter" || key == " " ==> selectedEntry == Some(entry)
      ensures key != "Enter" && key != " " ==> selectedEntry == old(selectedEntry)
    {
      if key == "Enter" || key == " " {
        selectedEntry := Some(entry);
      }
    }

    /** Clicking an entry opens its detail panel. */
    method HandleEntryClick(entry: Entry)
      modifies this`selectedEntry
      ensures selectedEntry == Some(entry)
    {
      selectedEntry := Some(entry);
    }

    /** The detail panel's close button. */
    method CloseDetail()
      modifies this`selectedEntry
      ensures selectedEntry == None
    {
      selectedEntry := None;
    }

    method SetTimeFilter(f: TimeFilter)
      modifies this`timeFilter
      ensures timeFilter == f
    {
      timeFilter := f;
    }

    /** The play/pause button. */
    method TogglePlaying()
      modifies this`isPlaying
      ensures isPlaying == !old(isPlaying)
    {
      isPlaying := !isPlaying;
    }

    /** The rows the board scrolls through. */
    function Rows(): seq<Entry>
      reads this
    {
      ExtendedData(FilteredData(data, timeFilter))
    }
  }
}
