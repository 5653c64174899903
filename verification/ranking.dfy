/**
 * The leaderboard `saveRanking` keeps: every finished run is appended, the list is
 * sorted by stars (more first) and then by steps (fewer first), and only the first
 * 50 entries are kept. The sort is stable, so a run that ties an older one goes after it.
 */
module Ranking {
  import opened Scoring
  import opened Names

  /** Entries kept on the leaderboard. */
  const RANKING_LIMIT: nat := 50

  /** One run on the leaderboard; `date` is the clock reading at saving time. */
  datatype Entry = Entry(name: string, stars: nat, steps: nat, levels: int, mode: Mode, date: int)

  /** `a` ranks strictly ahead of `b`: more stars, or as many stars in fewer steps. */
  predicate Before(a: Entry, b: Entry)
  {
    a.stars > b.stars || (a.stars == b.stars && a.steps < b.steps)
  }

  /** Ranking ahead is a strict weak order: irreflexive, transitive, and ties are transitive too. */
  lemma BeforeIsStrictWeakOrder(a: Entry, b: Entry, c: Entry)
    ensures !Before(a, a)
    ensures Before(a, b) ==> !Before(b, a)
    ensures Before(a, b) && Before(b, c) ==> Before(a, c)
    ensures !Before(a, b) && !Before(b, c) ==> !Before(a, c)
  {
  }

  /** No entry ranks ahead of an earlier one. */
  ghost predicate Sorted(s: seq<Entry>)
  {
    forall i, j :: 0 <= i < j < |s| ==> !Before(s[j], s[i])
  }

  /** `x` placed in front of the first entry it ranks ahead of, that is, after all its ties. */
  function Insert(x: Entry, s: seq<Entry>): (r: seq<Entry>)
    ensures |r| == |s| + 1
    ensures multiset(r) == multiset(s) + multiset{x}
    ensures forall y :: y in r <==> y == x || y in s
    ensures Sorted(s) ==> Sorted(r)
  {
    if |s| == 0 then [x]
    else if Before(x, s[0]) then
      assert Sorted(s) ==> Sorted([x] + s) by {
        if Sorted(s) {
          forall i, j | 0 <= i < j < |[x] + s|
            ensures !Before(([x] + s)[j], ([x] + s)[i])
          {
            if i > 0 { assert ([x] + s)[i] == s[i - 1]; }
            if i == 0 && j > 1 { assert !Before(s[j - 1], s[0]); }
          }
        }
      }
      [x] + s
    else
      var t := Insert(x, s[1..]);
      assert s == [s[0]] + s[1..];
      assert Sorted(s) ==> Sorted([s[0]] + t) by {
        if Sorted(s) {
          assert Sorted(s[1..]) by {
            forall i, j | 0 <= i < j < |s[1..]|
              ensures !Before(s[1..][j], s[1..][i])
            {
              assert s[1..][i] == s[i + 1] && s[1..][j] == s[j + 1];
            }
          }
          forall i, j | 0 <= i < j < |[s[0]] + t|
            ensures !Before(([s[0]] + t)[j], ([s[0]] + t)[i])
          {
            if i == 0 {
              var y := t[j - 1];
              assert y in t;
              if y != x {
                var k :| 0 <= k < |s[1..]| && s[1..][k] == y;
                assert s[k + 1] == y;
              }
            } else {
              assert ([s[0]] + t)[i] == t[i - 1] && ([s[0]] + t)[j] == t[j - 1];
            }
          }
        }
      }
      [s[0]] + t
  }

  /** How many leading entries `x` does not rank ahead of: where `Insert` puts it. */
  function Slot(x: Entry, s: seq<Entry>): (k: nat)
    ensures k <= |s|
    ensures forall i :: 0 <= i < k ==> !Before(x, s[i])
    ensures k < |s| ==> Before(x, s[k])
  {
    if |s| == 0 || Before(x, s[0]) then 0 else 1 + Slot(x, s[1..])
  }

  /** `Insert` puts `x` at its slot and leaves the other entries in order. */
  lemma {:induction false} InsertAtSlot(x: Entry, s: seq<Entry>)
    ensures var k := Slot(x, s); Insert(x, s) == s[..k] + [x] + s[k..]
  {
    if |s| > 0 && !Before(x, s[0]) {
      var t := s[1..];
      var k := Slot(x, t);
      InsertAtSlot(x, t);
      assert Insert(x, s) == [s[0]] + (t[..k] + [x] + t[k..]);
      SpliceBehindHead(s[0], t, x, k);
      assert [s[0]] + t == s;
    } else {
      assert s[..0] + [x] + s[0..] == [x] + s;
    }
  }

  /** Putting a head in front of a splice moves the splice point one place on. */
  lemma SpliceBehindHead(h: Entry, t: seq<Entry>, x: Entry, k: nat)
    requires k <= |t|
    ensures [h] + (t[..k] + [x] + t[k..]) == ([h] + t)[..k + 1] + [x] + ([h] + t)[k + 1..]
  {
    assert ([h] + t)[..k + 1] == [h] + t[..k];
    assert ([h] + t)[k + 1..] == t[k..];
  }

  /** On a sorted list `x` ranks ahead of everything from its slot on. */
  lemma SlotSplitsSorted(x: Entry, s: seq<Entry>, i: int)
    requires Sorted(s) && Slot(x, s) <= i < |s|
    ensures Before(x, s[i])
  {
    var k := Slot(x, s);
    if i > k {
      assert !Before(s[i], s[k]);
    }
  }

  /** A stable insertion sort: entries are taken in order and inserted after their ties. */
  function Sort(s: seq<Entry>): (r: seq<Entry>)
    ensures |r| == |s|
    ensures multiset(r) == multiset(s)
    ensures Sorted(r)
  {
    if |s| == 0 then []
    else
      assert s == s[..|s| - 1] + [s[|s| - 1]];
      Insert(s[|s| - 1], Sort(s[..|s| - 1]))
  }

  /** The first `n` entries, or all of them when there are fewer. */
  function Truncate(s: seq<Entry>, n: nat): (r: seq<Entry>)
    ensures |r| == if |s| < n then |s| else n
    ensures r == s[..|r|]
  {
    if |s| <= n then s else s[..n]
  }

  /** The entry `saveRanking` builds from the session: totals, highest level, mode and date. */
  function NewEntry(playerName: string, p: Progress, mode: Mode, date: int): (e: Entry)
    ensures e.name == DisplayName(playerName) && |e.name| > 0
    ensures e.stars == p.totalStars && e.steps == p.totalSteps && e.levels == p.maxLevelPassed
  {
    Entry(DisplayName(playerName), p.totalStars, p.totalSteps, p.maxLevelPassed, mode, date)
  }

  /**
   * `saveRanking`: append the entry, sort, keep the first 50. The result is sorted,
   * holds only stored entries and the new one, and is as long as it can be.
   */
  function SaveRanking(ranking: seq<Entry>, entry: Entry): (r: seq<Entry>)
    ensures Sorted(r)
    ensures |r| == if |ranking| < RANKING_LIMIT then |ranking| + 1 else RANKING_LIMIT
    ensures multiset(r) <= multiset(ranking) + multiset{entry}
  {
    var all := Sort(ranking + [entry]);
    var r := Truncate(all, RANKING_LIMIT);
    assert Sorted(r) by {
      forall i, j | 0 <= i < j < |r|
        ensures !Before(r[j], r[i])
      {
        assert r[i] == all[i] && r[j] == all[j];
      }
    }
    assert multiset(r) <= multiset(all) by {
      assert all == r + all[|r|..];
    }
    r
  }

  /** Nothing that ranks ahead of a kept entry is dropped. */
  lemma SaveRankingKeepsTheBest(ranking: seq<Entry>, entry: Entry, x: Entry, k: nat)
    requires x in ranking + [entry]
    requires k < |SaveRanking(ranking, entry)|
    requires Before(x, SaveRanking(ranking, entry)[k])
    ensures x in SaveRanking(ranking, entry)
  {
    var all := Sort(ranking + [entry]);
    var r := SaveRanking(ranking, entry);
    assert r == Truncate(all, RANKING_LIMIT);
    assert x in multiset(ranking + [entry]);
    assert x in all by {
      assert x in multiset(all);
    }
    var j :| 0 <= j < |all| && all[j] == x;
    assert r[k] == all[k];
    assert j < |r|;
    assert r[j] == x;
  }

  /** Inserting after the last entry it does not rank ahead of appends to a list it ranks behind. */
  lemma {:induction false} InsertBehindAll(x: Entry, s: seq<Entry>)
    requires forall i :: 0 <= i < |s| ==> !Before(x, s[i])
    ensures Insert(x, s) == s + [x]
  {
    if |s| > 0 {
      assert !Before(x, s[0]);
      InsertBehindAll(x, s[1..]);
      assert s == [s[0]] + s[1..];
    }
  }

  /** Sorting a sorted list changes nothing: ties keep their order. */
  lemma {:induction false} SortKeepsSorted(s: seq<Entry>)
    requires Sorted(s)
    ensures Sort(s) == s
  {
    if |s| > 0 {
      var init := s[..|s| - 1];
      assert Sorted(init) by {
        forall i, j | 0 <= i < j < |init|
          ensures !Before(init[j], init[i])
        {
          assert init[i] == s[i] && init[j] == s[j];
        }
      }
      SortKeepsSorted(init);
      forall i | 0 <= i < |init|
        ensures !Before(s[|s| - 1], init[i])
      {
        assert init[i] == s[i];
      }
      InsertBehindAll(s[|s| - 1], init);
      assert init + [s[|s| - 1]] == s;
    }
  }

  /**
   * On a sorted leaderboard the new run goes behind every stored run it does not
   * rank ahead of, in front of the rest, and the list is then cut to 50.
   */
  lemma SaveRankingInsertsBehindTies(ranking: seq<Entry>, entry: Entry)
    requires Sorted(ranking)
    ensures SaveRanking(ranking, entry) == Truncate(Insert(entry, ranking), RANKING_LIMIT)
  {
    var all := ranking + [entry];
    assert all[..|all| - 1] == ranking;
    SortKeepsSorted(ranking);
  }
}
