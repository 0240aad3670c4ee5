// Column aggregates of a wallet's history: counts, sums, earliest and latest times.

module Stats {
  import opened Records
  import opened Sorting

  /** `(df["swapType"] == t).sum()`: the number of rows of type `t`. */
  function CountType(s: seq<SwapRecord>, t: SwapType): (n: nat)
    ensures n <= |s|
  {
    if s == [] then 0 else CountType(s[..|s| - 1], t) + Indicator(s[|s| - 1], t)
  }

  /** The positions of `s` holding a row of type `t`. */
  function Positions(s: seq<SwapRecord>, t: SwapType): set<int>
  {
    set i | 0 <= i < |s| && s[i].swapType == t
  }

  lemma PositionsInit(s: seq<SwapRecord>, t: SwapType)
    requires s != []
    ensures var k := |s| - 1;
      Positions(s, t) == Positions(s[..k], t) + (if s[k].swapType == t then {k} else {})
    ensures |s| - 1 !in Positions(s[..|s| - 1], t)
  {
    var k := |s| - 1;
    assert forall i :: 0 <= i < k ==> s[..k][i] == s[i];
  }

  /** The count is the number of positions holding a row of type `t`. */
  lemma {:induction false} CountTypePositions(s: seq<SwapRecord>, t: SwapType)
    ensures CountType(s, t) == |Positions(s, t)|
  {
    if s != [] {
      var k := |s| - 1;
      CountTypePositions(s[..k], t);
      PositionsInit(s, t);
    }
  }

  function Indicator(r: SwapRecord, t: SwapType): nat
  {
    if r.swapType == t then 1 else 0
  }

  lemma CountAppend(s: seq<SwapRecord>, x: SwapRecord, t: SwapType)
    ensures CountType(s + [x], t) == CountType(s, t) + Indicator(x, t)
  {
    assert (s + [x])[..|s|] == s;
  }

  lemma {:induction false} CountPrepend(x: SwapRecord, s: seq<SwapRecord>, t: SwapType)
    ensures CountType([x] + s, t) == Indicator(x, t) + CountType(s, t)
    decreases |s|
  {
    if s == [] {
      assert [x] + s == [] + [x];
      CountAppend([], x, t);
    } else {
      var init, last := s[..|s| - 1], s[|s| - 1];
      assert s == init + [last];
      assert [x] + s == ([x] + init) + [last];
      CountPrepend(x, init, t);
      CountAppend([x] + init, last, t);
      CountAppend(init, last, t);
    }
  }

  lemma {:induction false} CountInsert(x: SwapRecord, s: seq<SwapRecord>, t: SwapType)
    ensures CountType(InsertByTime(x, s), t) == Indicator(x, t) + CountType(s, t)
  {
    if s == [] || x.time < s[0].time {
      CountPrepend(x, s, t);
    } else {
      CountInsert(x, s[1..], t);
      CountPrepend(s[0], InsertByTime(x, s[1..]), t);
      CountPrepend(s[0], s[1..], t);
      assert s == [s[0]] + s[1..];
    }
  }

  /** Sorting the rows does not change how many there are of each type. */
  lemma {:induction false} CountSorted(s: seq<SwapRecord>, t: SwapType)
    ensures CountType(SortByTime(s), t) == CountType(s, t)
  {
    if s != [] {
      var init, last := s[..|s| - 1], s[|s| - 1];
      CountSorted(init, t);
      CountInsert(last, SortByTime(init), t);
      CountAppend(init, last, t);
      assert s == init + [last];
    }
  }

  /** `df[column].sum()` for the column that `f` reads. */
  function SumOf(s: seq<SwapRecord>, f: SwapRecord -> real): real
  {
    if s == [] then 0.0 else f(s[0]) + SumOf(s[1..], f)
  }

  /** The `Tax_1pct` column. */
  function Tax(r: SwapRecord): real
  {
    r.tax
  }

  /** The `transactionFee` column. */
  function Fee(r: SwapRecord): real
  {
    r.fee
  }

  lemma {:induction false} SumAppend(s: seq<SwapRecord>, x: SwapRecord, f: SwapRecord -> real)
    ensures SumOf(s + [x], f) == SumOf(s, f) + f(x)
  {
    if s != [] {
      SumAppend(s[1..], x, f);
      assert (s + [x])[1..] == s[1..] + [x];
    }
  }

  lemma {:induction false} SumInsert(x: SwapRecord, s: seq<SwapRecord>, f: SwapRecord -> real)
    ensures SumOf(InsertByTime(x, s), f) == f(x) + SumOf(s, f)
  {
    if s != [] && x.time >= s[0].time {
      SumInsert(x, s[1..], f);
      assert ([s[0]] + InsertByTime(x, s[1..]))[1..] == InsertByTime(x, s[1..]);
    }
  }

  /** Sorting the rows does not change a column total. */
  lemma {:induction false} SumSorted(s: seq<SwapRecord>, f: SwapRecord -> real)
    ensures SumOf(SortByTime(s), f) == SumOf(s, f)
  {
    if s != [] {
      var init, last := s[..|s| - 1], s[|s| - 1];
      SumSorted(init, f);
      SumInsert(last, SortByTime(init), f);
      SumAppend(init, last, f);
      assert s == init + [last];
    }
  }

  /** The earliest time in `s`, or None (pandas NaT) when `s` is empty. */
  function MinTime(s: seq<SwapRecord>): (t: Option<int>)
    ensures t.None? <==> s == []
  {
    if s == [] then None
    else
      var rest := MinTime(s[1..]);
      if rest.None? || s[0].time <= rest.value then Some(s[0].time) else rest
  }

  /** The latest time in `s`, or None (pandas NaT) when `s` is empty. */
  function MaxTime(s: seq<SwapRecord>): (t: Option<int>)
    ensures t.None? <==> s == []
  {
    if s == [] then None
    else
      var rest := MaxTime(s[1..]);
      if rest.None? || s[0].time >= rest.value then Some(s[0].time) else rest
  }

  /** A present earliest time is the time of a row of `s` and no row is earlier. */
  lemma {:induction false} MinTimeLeast(s: seq<SwapRecord>)
    ensures MinTime(s).Some? ==>
      (exists r :: r in s && r.time == MinTime(s).value) && forall r :: r in s ==> MinTime(s).value <= r.time
  {
    if s != [] {
      MinTimeLeast(s[1..]);
      assert forall r :: r in s ==> r == s[0] || r in s[1..];
    }
  }

  /** A present latest time is the time of a row of `s` and no row is later. */
  lemma {:induction false} MaxTimeGreatest(s: seq<SwapRecord>)
    ensures MaxTime(s).Some? ==>
      (exists r :: r in s && r.time == MaxTime(s).value) && forall r :: r in s ==> r.time <= MaxTime(s).value
  {
    if s != [] {
      MaxTimeGreatest(s[1..]);
      assert forall r :: r in s ==> r == s[0] || r in s[1..];
    }
  }
}
