// The burst loop of one wallet, proved to keep exactly the rows of its large
// bursts.

module WalletLoop {
  import opened Records
  import opened BurstWindows
  import opened Chunking

  /** The burst `group[from..i]`, cut off by the buy at `i` (if any), is the
      first burst of `group[from..]`. */
  lemma BurstAt(group: seq<SwapRecord>, from: nat, i: nat)
    requires from < i <= |group|
    requires WithinWindow(group[from..i])
    requires i < |group| ==> group[i].time - group[from].time > BurstWindow
    ensures LargeBuys(group[from..]) == (if Large(group[from..i]) then group[from..i] else []) + LargeBuys(group[i..])
  {
    var s := group[from..];
    var n := i - from;
    assert s[..n] == group[from..i];
    assert s[n..] == group[i..];
    if i < |group| { assert s[n] == group[i]; }
    BurstsSplit(s, n);
  }

  /** Closing a burst moves its kept rows from the part still to be chunked to
      the part already chunked. */
  lemma Regroup(chunked: seq<SwapRecord>, b: seq<SwapRecord>, keep: bool, rest: seq<SwapRecord>, total: seq<SwapRecord>)
    requires chunked + ((if keep then b else []) + rest) == total
    ensures (if keep then chunked + b else chunked) + rest == total
  {
    if keep {
      assert chunked + (b + rest) == (chunked + b) + rest;
    } else {
      assert [] + rest == rest;
    }
  }

  /** A buy within the window of a burst's first buy extends the burst. */
  lemma WindowExtend(b: seq<SwapRecord>, r: SwapRecord)
    requires WithinWindow(b) && r.time - b[0].time <= BurstWindow
    ensures WithinWindow(b + [r])
  {
    forall k | 0 <= k < |b| + 1 ensures (b + [r])[k].time - (b + [r])[0].time <= BurstWindow {
      if k < |b| { assert (b + [r])[k] == b[k]; }
    }
  }

  lemma VolumeAppend(b: seq<SwapRecord>, r: SwapRecord)
    ensures Volume(b + [r]) == Volume(b) + r.outBeforeTax
  {
    assert (b + [r])[..|b|] == b;
  }

  /** The state of the burst loop after `i` buys: the open burst `current`
      starts at `from`, and the rows chunked so far followed by those the rest
      of the buys will contribute are exactly the wallet's large-burst rows. */
  ghost predicate LoopState(group: seq<SwapRecord>, i: nat, from: nat, current: seq<SwapRecord>,
                            chunkStart: int, currentSum: real, chunked: seq<SwapRecord>)
  {
    && from <= i <= |group|
    && current == group[from..i]
    && (i > 0 ==> from < i && chunkStart == group[from].time && WithinWindow(current))
    && currentSum == Volume(current)
    && chunked + LargeBuys(group[from..]) == LargeBuys(group)
  }

  /** The buy at `i` opens a burst of its own. */
  lemma Restart(group: seq<SwapRecord>, i: nat, chunked: seq<SwapRecord>)
    requires i < |group| && chunked + LargeBuys(group[i..]) == LargeBuys(group)
    ensures LoopState(group, i + 1, i, [group[i]], group[i].time, group[i].outBeforeTax, chunked)
  {
    VolumeAppend([], group[i]);
    assert group[i..i + 1] == [group[i]];
  }

  /** The first buy opens the first burst. */
  lemma OpenStep(group: seq<SwapRecord>, i: nat, from: nat, chunkStart: int, currentSum: real, chunked: seq<SwapRecord>)
    requires LoopState(group, i, from, [], chunkStart, currentSum, chunked) && i < |group|
    ensures LoopState(group, i + 1, i, [group[i]], group[i].time, group[i].outBeforeTax, chunked)
  {
    Restart(group, i, chunked);
  }

  /** A buy within the window joins the open burst. */
  lemma JoinStep(group: seq<SwapRecord>, i: nat, from: nat, current: seq<SwapRecord>,
                 chunkStart: int, currentSum: real, chunked: seq<SwapRecord>)
    requires LoopState(group, i, from, current, chunkStart, currentSum, chunked)
    requires i < |group| && current != [] && group[i].time - chunkStart <= BurstWindow
    ensures LoopState(group, i + 1, from, current + [group[i]], chunkStart, currentSum + group[i].outBeforeTax, chunked)
  {
    VolumeAppend(current, group[i]);
    WindowExtend(current, group[i]);
    assert group[from..i + 1] == group[from..i] + [group[i]];
  }

  /** A buy outside the window closes the open burst, which is kept iff its
      volume is large, and opens the next one. */
  lemma CloseStep(group: seq<SwapRecord>, i: nat, from: nat, current: seq<SwapRecord>,
                  chunkStart: int, currentSum: real, chunked: seq<SwapRecord>)
    requires LoopState(group, i, from, current, chunkStart, currentSum, chunked)
    requires i < |group| && current != [] && group[i].time - chunkStart > BurstWindow
    ensures LoopState(group, i + 1, i, [group[i]], group[i].time, group[i].outBeforeTax,
                      if currentSum > VolumeThreshold then chunked + current else chunked)
  {
    BurstAt(group, from, i);
    Regroup(chunked, current, Large(current), LargeBuys(group[i..]), LargeBuys(group));
    Restart(group, i, if currentSum > VolumeThreshold then chunked + current else chunked);
  }

  /** After the last buy, the open burst is closed the same way. */
  lemma FinishStep(group: seq<SwapRecord>, from: nat, current: seq<SwapRecord>,
                   chunkStart: int, currentSum: real, chunked: seq<SwapRecord>)
    requires LoopState(group, |group|, from, current, chunkStart, currentSum, chunked)
    ensures (if currentSum > VolumeThreshold then chunked + current else chunked) == LargeBuys(group)
  {
    if group != [] {
      BurstAt(group, from, |group|);
      Regroup(chunked, current, Large(current), LargeBuys(group[|group|..]), LargeBuys(group));
      assert group[|group|..] == [];
    } else {
      assert chunked + [] == chunked;
    }
  }

  /** The burst loop for one wallet (`current_chunk`, `chunk_start_time`,
      `current_sum`), appending the rows of each large burst to `chunked`. */
  method ChunkWallet(group: seq<SwapRecord>) returns (chunked: seq<SwapRecord>)
    ensures chunked == LargeBuys(group)
  {
    chunked := [];
    var current: seq<SwapRecord> := [];
    var chunkStart := 0;
    var currentSum := 0.0;
    ghost var from := 0;
    for i := 0 to |group|
      invariant LoopState(group, i, from, current, chunkStart, currentSum, chunked)
    {
      var row := group[i];
      if current == [] {
        OpenStep(group, i, from, chunkStart, currentSum, chunked);
        from := i;
        chunkStart := row.time;
        current := [row];
        currentSum := row.outBeforeTax;
      } else if row.time - chunkStart <= BurstWindow {
        JoinStep(group, i, from, current, chunkStart, currentSum, chunked);
        current := current + [row];
        currentSum := currentSum + row.outBeforeTax;
      } else {
        CloseStep(group, i, from, current, chunkStart, currentSum, chunked);
        if currentSum > VolumeThreshold {
          chunked := chunked + current;
        }
        from := i;
        chunkStart := row.time;
        current := [row];
        currentSum := row.outBeforeTax;
      }
    }
    FinishStep(group, from, current, chunkStart, currentSum, chunked);
    if currentSum > VolumeThreshold {
      chunked := chunked + current;
    }
  }
}
