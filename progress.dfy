/**
 * The download progress hook: `urlretrieve` reports `(block_num, block_size,
 * total_size)` after each block, and the installer forwards a percentage
 * whenever the total size is known.
 */
module DownloadProgress {
  import opened Events

  /** One report from the download, as `urlretrieve` passes it to the hook. */
  datatype HookCall = HookCall(blockNum: int, blockSize: int, totalSize: int)

  /** Quotient and remainder pin down when a floored quotient reaches `k`. */
  lemma QuotientAtLeast(n: int, d: int, k: int)
    requires d > 0
    ensures n / d >= k <==> n >= k * d
  {
    var q, r := n / d, n % d;
    assert n == q * d + r && 0 <= r < d;
    if q >= k {
      assert q * d >= k * d;
    } else {
      assert q <= k - 1;
      assert q * d <= (k - 1) * d;
    }
  }

  /**
   * `min(100, block_num * block_size * 100 // total_size)`. For a positive
   * divisor Dafny's `/` floors, as Python's `//` does.
   */
  function Percent(blockNum: int, blockSize: int, totalSize: int): (p: int)
    requires totalSize > 0
    ensures p <= 100
    ensures p == 100 <==> blockNum * blockSize >= totalSize
    ensures blockNum * blockSize >= 0 ==> p >= 0
    ensures p < 100 ==> p * totalSize <= blockNum * blockSize * 100 < (p + 1) * totalSize
  {
    var n := blockNum * blockSize * 100;
    var raw := n / totalSize;
    assert n == raw * totalSize + n % totalSize && 0 <= n % totalSize < totalSize;
    QuotientAtLeast(blockNum * blockSize * 100, totalSize, 100);
    QuotientAtLeast(blockNum * blockSize * 100, totalSize, 0);
    if raw < 100 then raw else 100
  }

  /** More blocks never lower the percentage. */
  lemma PercentMonotone(b1: int, b2: int, blockSize: int, totalSize: int)
    requires b1 <= b2 && blockSize >= 0 && totalSize > 0
    ensures Percent(b1, blockSize, totalSize) <= Percent(b2, blockSize, totalSize)
  {
    var n1, n2 := b1 * blockSize * 100, b2 * blockSize * 100;
    assert (b2 - b1) * blockSize >= 0;
    assert n1 <= n2;
    var q1, q2 := n1 / totalSize, n2 / totalSize;
    if q1 > q2 {
      QuotientAtLeast(n2, totalSize, q2 + 1);
      QuotientAtLeast(n1, totalSize, q2 + 1);
    }
  }

  /** The progress events the hook forwards for a sequence of reports. */
  function HookEvents(calls: seq<HookCall>, description: string): (r: seq<ProgressEvent>)
    ensures |r| <= |calls|
    ensures forall e | e in r :: e.stage == Downloading(description) && e.value <= 100
  {
    if calls == [] then []
    else
      var c := calls[0];
      (if c.totalSize > 0 then [ProgressEvent(Percent(c.blockNum, c.blockSize, c.totalSize), Downloading(description))]
       else [])
      + HookEvents(calls[1..], description)
  }

  lemma {:induction false} HookEventsAppend(calls: seq<HookCall>, c: HookCall, description: string)
    ensures HookEvents(calls + [c], description) == HookEvents(calls, description) + HookEvents([c], description)
  {
    if calls == [] {
      assert calls + [c] == [c];
    } else {
      assert (calls + [c])[1..] == calls[1..] + [c];
      HookEventsAppend(calls[1..], c, description);
    }
  }

  /** The reports `urlretrieve` makes: consecutive block numbers, one block size, one total. */
  ghost predicate Consecutive(calls: seq<HookCall>, first: int, blockSize: int, totalSize: int)
  {
    forall i | 0 <= i < |calls| :: calls[i] == HookCall(first + i, blockSize, totalSize)
  }

  lemma {:induction false} HookEventsOfConsecutive(calls: seq<HookCall>, first: int, blockSize: int, totalSize: int, description: string)
    requires Consecutive(calls, first, blockSize, totalSize) && totalSize > 0
    ensures |HookEvents(calls, description)| == |calls|
    ensures forall k | 0 <= k < |calls| ::
      HookEvents(calls, description)[k].value == Percent(first + k, blockSize, totalSize)
  {
    if calls != [] {
      assert Consecutive(calls[1..], first + 1, blockSize, totalSize) by {
        forall i | 0 <= i < |calls| - 1 ensures calls[1..][i] == HookCall(first + 1 + i, blockSize, totalSize) {
          assert calls[1..][i] == calls[i + 1];
        }
      }
      HookEventsOfConsecutive(calls[1..], first + 1, blockSize, totalSize, description);
    }
  }

  /** Within one download the forwarded percentages never decrease. */
  lemma HookEventsNonDecreasing(calls: seq<HookCall>, blockSize: int, totalSize: int, description: string)
    requires Consecutive(calls, 0, blockSize, totalSize) && blockSize >= 0
    ensures NonDecreasing(Values(HookEvents(calls, description)))
  {
    if totalSize > 0 {
      HookEventsOfConsecutive(calls, 0, blockSize, totalSize, description);
      var vs := Values(HookEvents(calls, description));
      forall i, j | 0 <= i < j < |vs| ensures vs[i] <= vs[j] {
        PercentMonotone(i, j, blockSize, totalSize);
      }
    } else {
      HookEventsSilent(calls, description);
    }
  }

  /** Within one download the forwarded percentages stay between 0 and 100. */
  lemma HookEventsInRange(calls: seq<HookCall>, blockSize: int, totalSize: int, description: string)
    requires Consecutive(calls, 0, blockSize, totalSize) && blockSize >= 0
    ensures forall e | e in HookEvents(calls, description) :: 0 <= e.value <= 100
  {
    if totalSize > 0 {
      HookEventsOfConsecutive(calls, 0, blockSize, totalSize, description);
      var events := HookEvents(calls, description);
      forall k | 0 <= k < |events| ensures 0 <= events[k].value {
        NonNegativePercent(k, blockSize, totalSize);
      }
    } else {
      HookEventsSilent(calls, description);
    }
  }

  lemma NonNegativePercent(blockNum: int, blockSize: int, totalSize: int)
    requires blockNum >= 0 && blockSize >= 0 && totalSize > 0
    ensures Percent(blockNum, blockSize, totalSize) >= 0
  {
    assert blockNum * blockSize >= 0;
  }

  /** Without a known total size the hook forwards nothing. */
  lemma {:induction false} HookEventsSilent(calls: seq<HookCall>, description: string)
    requires forall i | 0 <= i < |calls| :: calls[i].totalSize <= 0
    ensures HookEvents(calls, description) == []
  {
    if calls != [] {
      HookEventsSilent(calls[1..], description);
    }
  }
}
