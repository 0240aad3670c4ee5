// Row selection helpers: boolean-mask filtering and distinct wallets.

module Selection {
  import opened Records

  /** Keeps the elements satisfying `p`, in order (a boolean-mask row selection). */
  function Filter<T(!new)>(s: seq<T>, p: T -> bool): (r: seq<T>)
    ensures |r| <= |s|
    ensures forall x :: x in r <==> x in s && p(x)
  {
    if s == [] then [] else (if p(s[0]) then [s[0]] else []) + Filter(s[1..], p)
  }

  /** A selection keeps every copy of each row the mask accepts and no copy
      of any other row. */
  lemma {:induction false} FilterMultiset<T(!new)>(s: seq<T>, p: T -> bool)
    ensures forall x :: multiset(Filter(s, p))[x] == if p(x) then multiset(s)[x] else 0
  {
    if s != [] {
      FilterMultiset(s[1..], p);
      assert s == [s[0]] + s[1..];
    }
  }

  /** The wallets of `s`, once each, in order of first appearance
      (`drop_duplicates` on the maker column). */
  function DistinctMakers(s: seq<SwapRecord>): (ms: seq<string>)
    ensures forall m :: m in ms <==> exists r :: r in s && r.maker == m
    ensures forall i, j :: 0 <= i < j < |ms| ==> ms[i] != ms[j]
  {
    if s == [] then []
    else
      var last := s[|s| - 1];
      var prefix := DistinctMakers(s[..|s| - 1]);
      assert s == s[..|s| - 1] + [last];
      if last.maker in prefix then prefix else prefix + [last.maker]
  }

  /** The wallets that appear in `s`. */
  function Makers(s: seq<SwapRecord>): set<string>
  {
    set r | r in s :: r.maker
  }

  /** The distinct wallets list exactly the wallets of `s`. */
  lemma DistinctMakersSet(s: seq<SwapRecord>)
    ensures (set i | 0 <= i < |DistinctMakers(s)| :: DistinctMakers(s)[i]) == Makers(s)
  {
    var ms := DistinctMakers(s);
    forall m ensures m in (set i | 0 <= i < |ms| :: ms[i]) <==> m in Makers(s) {
      if m in ms {
        var k :| 0 <= k < |ms| && ms[k] == m;
      }
    }
  }

  /** Applies `f` to every element, in order: one output per input. */
  function MapSeq<A, B>(s: seq<A>, f: A --> B): (r: seq<B>)
    requires forall i :: 0 <= i < |s| ==> f.requires(s[i])
    ensures |r| == |s|
  {
    if s == [] then [] else MapSeq(s[..|s| - 1], f) + [f(s[|s| - 1])]
  }

  /** Output `i` is `f` applied to input `i`. */
  lemma {:induction false} MapSeqIndex<A, B>(s: seq<A>, f: A --> B)
    requires forall i :: 0 <= i < |s| ==> f.requires(s[i])
    ensures forall i :: 0 <= i < |s| ==> MapSeq(s, f)[i] == f(s[i])
  {
    if s != [] {
      var init := s[..|s| - 1];
      MapSeqIndex(init, f);
      forall i | 0 <= i < |s| ensures MapSeq(s, f)[i] == f(s[i]) {
        if i < |init| {
          assert init[i] == s[i];
        }
      }
    }
  }

  lemma MapSeqSnoc<A, B>(s: seq<A>, i: nat, f: A --> B)
    requires i < |s| && forall k :: 0 <= k < |s| ==> f.requires(s[k])
    ensures MapSeq(s[..i + 1], f) == MapSeq(s[..i], f) + [f(s[i])]
  {
    assert s[..i + 1][..i] == s[..i];
  }
}
