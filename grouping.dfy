// The burst stage over every wallet: buys grouped by maker, each group sorted
// by time and chunked, the kept rows collected into `chunked_buys`.

module Grouping {
  import opened Records
  import opened Selection
  import opened Sorting
  import opened BurstWindows
  import opened Chunking
  import opened WalletLoop

  /** A wallet's buys in time order (`buy_df` sorted, one `groupby` group). */
  function WalletBuys(records: seq<SwapRecord>, maker: string): (s: seq<SwapRecord>)
    ensures SortedByTime(s)
    ensures forall r :: r in s <==> r in records && r.swapType == Buy && r.maker == maker
  {
    var buys := Filter(records, (r: SwapRecord) => r.swapType == Buy && r.maker == maker);
    var s := SortByTime(buys);
    SortByTimeCorrect(buys);
    assert forall r :: r in s <==> r in buys by {
      forall r ensures r in s <==> r in buys {
        assert r in s <==> r in multiset(s);
        assert r in buys <==> r in multiset(buys);
      }
    }
    s
  }

  /** The group keeps every copy of a repeated buy, so each copy adds to its
      burst's volume. */
  lemma WalletBuysMultiset(records: seq<SwapRecord>, maker: string)
    ensures forall r :: multiset(WalletBuys(records, maker))[r]
                        == if r.swapType == Buy && r.maker == maker then multiset(records)[r] else 0
  {
    var buys := Filter(records, (r: SwapRecord) => r.swapType == Buy && r.maker == maker);
    SortByTimeCorrect(buys);
    FilterMultiset(records, (r: SwapRecord) => r.swapType == Buy && r.maker == maker);
  }

  /** The row belongs to a large burst of its own wallet. */
  predicate InLargeBurst(records: seq<SwapRecord>, r: SwapRecord)
  {
    r in LargeBuys(WalletBuys(records, r.maker))
  }

  /** The whole burst stage of `process_sniper_data`: every wallet's group is
      chunked and the kept rows are collected into `chunked_buys`. */
  method ChunkLargeBuys(records: seq<SwapRecord>) returns (chunked: seq<SwapRecord>)
    ensures forall r :: r in chunked <==> r in records && r.swapType == Buy && InLargeBurst(records, r)
  {
    var buys := Filter(records, (r: SwapRecord) => r.swapType == Buy);
    var makers := DistinctMakers(buys);
    chunked := [];
    for i := 0 to |makers|
      invariant forall r :: r in chunked <==> r.maker in makers[..i] && InLargeBurst(records, r)
    {
      var group := WalletBuys(records, makers[i]);
      var kept := ChunkWallet(group);
      forall r | r in kept ensures r.maker == makers[i] {
        LargeBuysSubset(group, r);
      }
      assert makers[..i + 1] == makers[..i] + [makers[i]];
      chunked := chunked + kept;
    }
    assert makers[..|makers|] == makers;
    forall r ensures r in chunked <==> r in records && r.swapType == Buy && InLargeBurst(records, r) {
      if InLargeBurst(records, r) {
        LargeBuysSubset(WalletBuys(records, r.maker), r);
        assert r in buys;
      }
    }
  }
}
