// The burst loop of one wallet: only the rows of bursts whose summed pre-tax
// volume exceeds 100,000 are kept.

module Chunking {
  import opened Records
  import opened BurstWindows

  /** A burst is large when its pre-tax volume is strictly above this. */
  const VolumeThreshold: real := 100000.0

  /** Summed `amountOutBeforeTax` of a burst (`current_sum`). */
  function Volume(b: seq<SwapRecord>): real
  {
    if b == [] then 0.0 else Volume(b[..|b| - 1]) + b[|b| - 1].outBeforeTax
  }

  predicate Large(b: seq<SwapRecord>)
  {
    Volume(b) > VolumeThreshold
  }

  function KeepLarge(bs: seq<seq<SwapRecord>>): seq<SwapRecord>
  {
    if bs == [] then [] else (if Large(bs[0]) then bs[0] else []) + KeepLarge(bs[1..])
  }

  /** The rows a wallet contributes to `chunked_buys`. */
  function LargeBuys(s: seq<SwapRecord>): seq<SwapRecord>
  {
    KeepLarge(Bursts(s))
  }

  /** When `s[..n]` is one window and `s[n]` (if any) falls outside it, the
      first burst of `s` is exactly `s[..n]`. */
  lemma BurstsSplit(s: seq<SwapRecord>, n: nat)
    requires 0 < n <= |s|
    requires WithinWindow(s[..n])
    requires n < |s| ==> s[n].time - s[0].time > BurstWindow
    ensures LargeBuys(s) == (if Large(s[..n]) then s[..n] else []) + LargeBuys(s[n..])
  {
    JoinCountWindow(s[1..], s[0].time);
    forall k | 0 <= k < n - 1 ensures s[1..][k].time - s[0].time <= BurstWindow {
      assert s[1..][k] == s[..n][k + 1];
    }
    if n < |s| { assert s[1..][n - 1] == s[n]; }
    assert FirstLen(s) == n;
  }

  /** A row is kept iff it belongs to some large burst. */
  lemma {:induction false} KeepLargeMembers(bs: seq<seq<SwapRecord>>, r: SwapRecord)
    ensures r in KeepLarge(bs) <==> exists i :: 0 <= i < |bs| && r in bs[i] && Large(bs[i])
  {
    if bs != [] {
      KeepLargeMembers(bs[1..], r);
      if r in KeepLarge(bs[1..]) {
        var i :| 0 <= i < |bs[1..]| && r in bs[1..][i] && Large(bs[1..][i]);
        assert bs[i + 1] == bs[1..][i];
      }
      if exists i :: 0 <= i < |bs| && r in bs[i] && Large(bs[i]) {
        var i :| 0 <= i < |bs| && r in bs[i] && Large(bs[i]);
        if i > 0 { assert bs[1..][i - 1] == bs[i]; }
      }
    }
  }

  /** Every kept row of a wallet is one of its buys. */
  lemma LargeBuysSubset(s: seq<SwapRecord>, r: SwapRecord)
    requires r in LargeBuys(s)
    ensures r in s
  {
    KeepLargeMembers(Bursts(s), r);
    var i :| 0 <= i < |Bursts(s)| && r in Bursts(s)[i] && Large(Bursts(s)[i]);
    BurstsPartition(s);
    FlattenMember(Bursts(s), i, r);
  }

  lemma KeepLargeAllMembers(s: seq<SwapRecord>)
    ensures forall r :: r in LargeBuys(s) <==> exists b :: b in Bursts(s) && r in b && Large(b)
  {
    forall r ensures r in LargeBuys(s) <==> exists b :: b in Bursts(s) && r in b && Large(b) {
      KeepLargeMembers(Bursts(s), r);
      if exists b :: b in Bursts(s) && r in b && Large(b) {
        var b :| b in Bursts(s) && r in b && Large(b);
        var i :| 0 <= i < |Bursts(s)| && Bursts(s)[i] == b;
      }
    }
  }
}
