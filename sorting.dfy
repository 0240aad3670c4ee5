// `sort_values` by time, modelled as a stable insertion sort.

module Sorting {
  import opened Records

  predicate SortedByTime(s: seq<SwapRecord>)
  {
    forall i, j :: 0 <= i < j < |s| ==> s[i].time <= s[j].time
  }

  /** Inserts `x` after every element whose time is not later than its own. */
  function InsertByTime(x: SwapRecord, s: seq<SwapRecord>): seq<SwapRecord>
  {
    if s == [] || x.time < s[0].time then [x] + s else [s[0]] + InsertByTime(x, s[1..])
  }

  lemma {:induction false} InsertByTimeMultiset(x: SwapRecord, s: seq<SwapRecord>)
    ensures multiset(InsertByTime(x, s)) == multiset(s) + multiset{x}
  {
    if s != [] && x.time >= s[0].time {
      InsertByTimeMultiset(x, s[1..]);
      assert s == [s[0]] + s[1..];
    }
  }

  lemma {:induction false} InsertByTimeSorted(x: SwapRecord, s: seq<SwapRecord>)
    requires SortedByTime(s)
    ensures SortedByTime(InsertByTime(x, s))
  {
    var r := InsertByTime(x, s);
    if s == [] || x.time < s[0].time {
      forall i, j | 0 <= i < j < |r| ensures r[i].time <= r[j].time {
        assert r[j] == s[j - 1];
        if i > 0 { assert r[i] == s[i - 1]; }
      }
    } else {
      var t := InsertByTime(x, s[1..]);
      InsertByTimeSorted(x, s[1..]);
      assert r == [s[0]] + t;
      assert s[0].time <= t[0].time by {
        if |s| > 1 { assert s[1..][0] == s[1]; }
      }
      forall i, j | 0 <= i < j < |r| ensures r[i].time <= r[j].time {
        assert r[j] == t[j - 1];
        if i > 0 { assert r[i] == t[i - 1]; }
      }
    }
  }

  /** `sort_values(by=time)`: ascending by time, ties in input order. */
  function SortByTime(s: seq<SwapRecord>): seq<SwapRecord>
  {
    if s == [] then [] else InsertByTime(s[|s| - 1], SortByTime(s[..|s| - 1]))
  }

  /** The sort orders by time and is a permutation of its input. */
  lemma {:induction false} SortByTimeCorrect(s: seq<SwapRecord>)
    ensures SortedByTime(SortByTime(s))
    ensures multiset(SortByTime(s)) == multiset(s)
  {
    if s != [] {
      var init, last := s[..|s| - 1], s[|s| - 1];
      SortByTimeCorrect(init);
      InsertByTimeSorted(last, SortByTime(init));
      InsertByTimeMultiset(last, SortByTime(init));
      assert s == init + [last];
    }
  }
}
