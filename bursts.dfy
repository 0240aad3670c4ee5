// Burst windows: a wallet's time-sorted buys are cut into non-sliding
// 10-minute windows, each measured from the burst's first buy.

module BurstWindows {
  import opened Records

  /** `pd.Timedelta(minutes=10)`, in seconds. */
  const BurstWindow: int := 600

  /** The length of the longest prefix of `s` that lies within the window
      opened at `start`. */
  function JoinCount(s: seq<SwapRecord>, start: int): (n: nat)
    ensures n <= |s|
  {
    if s == [] || s[0].time - start > BurstWindow then 0 else 1 + JoinCount(s[1..], start)
  }

  /** Exactly the first `JoinCount` buys lie within the window. */
  lemma {:induction false} JoinCountWindow(s: seq<SwapRecord>, start: int)
    ensures forall k :: 0 <= k < JoinCount(s, start) ==> s[k].time - start <= BurstWindow
    ensures JoinCount(s, start) < |s| ==> s[JoinCount(s, start)].time - start > BurstWindow
  {
    if s != [] && s[0].time - start <= BurstWindow {
      JoinCountWindow(s[1..], start);
      forall k | 0 < k < JoinCount(s, start) ensures s[k].time - start <= BurstWindow {
        assert s[k] == s[1..][k - 1];
      }
    }
  }

  /** The length of the burst that starts at `s[0]`. */
  function FirstLen(s: seq<SwapRecord>): (n: nat)
    requires s != []
    ensures 1 <= n <= |s|
  {
    1 + JoinCount(s[1..], s[0].time)
  }

  /** The bursts of a wallet's buys: each starts at the first unassigned buy and
      takes every following buy within `BurstWindow` of that start. */
  function Bursts(s: seq<SwapRecord>): seq<seq<SwapRecord>>
    decreases |s|
  {
    if s == [] then [] else [s[..FirstLen(s)]] + Bursts(s[FirstLen(s)..])
  }

  function Flatten(bs: seq<seq<SwapRecord>>): seq<SwapRecord>
  {
    if bs == [] then [] else bs[0] + Flatten(bs[1..])
  }

  /** A nonempty burst all of whose buys lie within the window of its first buy. */
  predicate WithinWindow(b: seq<SwapRecord>)
  {
    |b| > 0 && forall k :: 0 <= k < |b| ==> b[k].time - b[0].time <= BurstWindow
  }

  /** Nonempty bursts, each starting more than `BurstWindow` after the previous
      one started. */
  predicate Spaced(bs: seq<seq<SwapRecord>>)
  {
    && (forall i :: 0 <= i < |bs| ==> bs[i] != [])
    && (forall i :: 0 < i < |bs| ==> bs[i][0].time - bs[i - 1][0].time > BurstWindow)
  }

  /** `bs` cuts `s` into consecutive windowed bursts, each of which starts with
      the first buy that falls outside its predecessor's window. */
  ghost predicate IsWindowPartition(s: seq<SwapRecord>, bs: seq<seq<SwapRecord>>)
  {
    && Flatten(bs) == s
    && (forall i :: 0 <= i < |bs| ==> WithinWindow(bs[i]))
    && Spaced(bs)
  }

  /** The first burst of `s` is windowed, and the buy that follows it lies
      outside its window. */
  lemma FirstBurst(s: seq<SwapRecord>)
    requires s != []
    ensures WithinWindow(s[..FirstLen(s)])
    ensures FirstLen(s) < |s| ==> s[FirstLen(s)].time - s[0].time > BurstWindow
  {
    var n := FirstLen(s);
    JoinCountWindow(s[1..], s[0].time);
    forall k | 0 <= k < n ensures s[..n][k].time - s[..n][0].time <= BurstWindow {
      if k > 0 { assert s[..n][k] == s[1..][k - 1]; }
    }
    if n < |s| { assert s[n] == s[1..][n - 1]; }
  }

  lemma {:induction false} BurstsFlatten(s: seq<SwapRecord>)
    ensures Flatten(Bursts(s)) == s
    decreases |s|
  {
    if s != [] {
      var n := FirstLen(s);
      BurstsFlatten(s[n..]);
      assert Bursts(s)[1..] == Bursts(s[n..]);
      assert s == s[..n] + s[n..];
    }
  }

  /** Every burst is windowed, and the first one starts with the first buy. */
  lemma {:induction false} BurstsWindowed(s: seq<SwapRecord>)
    ensures forall i :: 0 <= i < |Bursts(s)| ==> WithinWindow(Bursts(s)[i])
    ensures |Bursts(s)| > 0 ==> Bursts(s)[0][0] == s[0]
    decreases |s|
  {
    if s != [] {
      var n := FirstLen(s);
      var tail := Bursts(s[n..]);
      FirstBurst(s);
      BurstsWindowed(s[n..]);
      forall i | 0 < i < |Bursts(s)| ensures WithinWindow(Bursts(s)[i]) {
        assert Bursts(s)[i] == tail[i - 1];
      }
    }
  }

  /** Each burst starts more than `BurstWindow` after the previous one did. */
  lemma {:induction false} BurstsSpaced(s: seq<SwapRecord>)
    ensures Spaced(Bursts(s))
    decreases |s|
  {
    if s != [] {
      var n := FirstLen(s);
      var bs: seq<seq<SwapRecord>> := Bursts(s);
      var tail := Bursts(s[n..]);
      FirstBurst(s);
      BurstsWindowed(s[n..]);
      BurstsSpaced(s[n..]);
      assert bs == [s[..n]] + tail;
      forall i | 0 <= i < |bs| ensures bs[i] != [] {
        if i > 0 { assert bs[i] == tail[i - 1]; }
      }
      forall i | 0 < i < |bs| ensures bs[i][0].time - bs[i - 1][0].time > BurstWindow {
        if i == 1 {
          assert bs[1] == tail[0] && bs[0] == s[..n];
          assert s[n..] != [];
          assert tail[0][0] == s[n..][0] == s[n];
        } else {
          assert bs[i] == tail[i - 1] && bs[i - 1] == tail[i - 2];
        }
      }
    }
  }

  /** The bursts are a windowed partition of the wallet's buys. */
  lemma BurstsPartition(s: seq<SwapRecord>)
    ensures IsWindowPartition(s, Bursts(s))
  {
    BurstsFlatten(s);
    BurstsWindowed(s);
    BurstsSpaced(s);
  }

  /** A windowed partition is unique: every buy joins the current burst iff it is
      within the window of the burst's start, so `Bursts` is the only one. */
  lemma {:induction false} BurstsUnique(s: seq<SwapRecord>, bs: seq<seq<SwapRecord>>)
    requires IsWindowPartition(s, bs)
    ensures bs == Bursts(s)
    decreases |bs|
  {
    if bs != [] {
      var n := |bs[0]|;
      assert WithinWindow(bs[0]);
      assert s == bs[0] + Flatten(bs[1..]);
      assert s[..n] == bs[0];
      var tail := bs[1..];
      assert IsWindowPartition(s[n..], tail) by {
        assert Flatten(tail) == s[n..];
        forall i | 0 <= i < |tail| ensures WithinWindow(tail[i]) { assert tail[i] == bs[i + 1]; }
        forall i | 0 < i < |tail| ensures tail[i][0].time - tail[i - 1][0].time > BurstWindow {
          assert tail[i] == bs[i + 1] && tail[i - 1] == bs[i];
        }
      }
      BurstsUnique(s[n..], tail);
      var m := FirstLen(s) - 1;
      JoinCountWindow(s[1..], s[0].time);
      forall k | 0 <= k < n - 1 ensures s[1..][k].time - s[0].time <= BurstWindow {
        assert s[1..][k] == bs[0][k + 1];
      }
      if n - 1 < |s| - 1 {
        assert |bs| > 1;
        assert WithinWindow(bs[1]);
        assert Flatten(tail) == tail[0] + Flatten(tail[1..]);
        assert s[1..][n - 1] == s[n] == bs[1][0];
      }
      assert m == n - 1;
    }
  }

  lemma {:induction false} FlattenMember(bs: seq<seq<SwapRecord>>, i: nat, r: SwapRecord)
    requires i < |bs| && r in bs[i]
    ensures r in Flatten(bs)
  {
    if i > 0 { FlattenMember(bs[1..], i - 1, r); }
  }
}
