/** Block-number arithmetic and the timestamp search (packages/client/src/utils/block.ts). */
module Blocks {
  import opened Errors

  /** The number of blocks whose hashes one imported Merkle root covers. */
  const ChunkSize: int := 8192

  /** `BigNumber.from(blockNum).div(8192)`: BigNumber division truncates toward zero. */
  function BlockNumberToChunk(blockNum: int): (chunk: int)
    ensures blockNum >= 0 ==> 0 <= chunk && chunk * ChunkSize <= blockNum < (chunk + 1) * ChunkSize
    ensures blockNum < 0 ==> chunk <= 0 && (chunk - 1) * ChunkSize < blockNum <= chunk * ChunkSize
  {
    if blockNum >= 0 then blockNum / ChunkSize else -((-blockNum) / ChunkSize)
  }

  /** Block 15000000 lies in chunk 1831. */
  lemma ChunkExample()
    ensures BlockNumberToChunk(15000000) == 1831
  {
  }

  /** Two non-negative block numbers share a chunk exactly when they lie in the
      same aligned range of 8192 blocks. */
  lemma SameChunk(a: int, b: int)
    requires 0 <= a && 0 <= b
    ensures BlockNumberToChunk(a) == BlockNumberToChunk(b) <==> a / ChunkSize == b / ChunkSize
  {
  }

  /** `blockForTimestamp`, over a chain whose block `n` has timestamp
      `timestamps[n]`; the last entry is the latest block, which the provider
      always has. The probe the source computes by floating-point interpolation
      is chosen nondeterministically here from `[start, end]`; the clamping that
      follows it and the update rule are the source's.

      The result is a crossing point of the target: block 1 or a block no later
      than the target, whose successor is later than the target or is the latest
      block. When the chain has at least three blocks the latest block itself is
      never returned, even when its timestamp equals the target. */
  method BlockForTimestamp(timestamps: seq<int>, timestamp: int) returns (r: Result<nat>)
    requires |timestamps| > 0
    ensures var latest := |timestamps| - 1;
      && (timestamps[latest] < timestamp <==> r == Err(TimestampAfterCurrent(timestamp)))
      && (r.Err? <==> timestamps[latest] < timestamp || latest < 1)
      && (r.Ok? ==> 1 <= r.value <= latest)
      && (r.Ok? ==> r.value == 1 || timestamps[r.value] <= timestamp)
      && (r.Ok? && r.value < latest ==> r.value + 1 == latest || timestamps[r.value + 1] > timestamp)
      && (r.Ok? && latest >= 2 ==> r.value < latest)
  {
    var latest := |timestamps| - 1;
    if timestamps[latest] < timestamp {
      return Err(TimestampAfterCurrent(timestamp));
    }
    if latest < 1 {
      // `provider.getBlock(1)` yields null and reading its number throws
      return Err(Fault("block 1 is not available"));
    }
    var start, end := 1, latest;
    while end - start > 1
      invariant 1 <= start <= end <= latest
      invariant latest >= 2 ==> start < end
      invariant start == 1 || timestamps[start] <= timestamp
      invariant end == latest || timestamps[end] > timestamp
      decreases end - start
    {
      var nextNum :| start <= nextNum <= end;
      if nextNum == start {
        nextNum := nextNum + 1;
      }
      if nextNum == end {
        nextNum := nextNum - 1;
      }
      assert start < nextNum < end;
      if timestamps[nextNum] > timestamp {
        end := nextNum;
      } else {
        start := nextNum;
      }
    }
    return Ok(start);
  }

  /** What BlockForTimestamp promises, as a predicate on the returned block. */
  predicate IsCrossing(timestamps: seq<int>, timestamp: int, b: int) {
    && 1 <= b < |timestamps|
    && (b == 1 || timestamps[b] <= timestamp)
    && (b < |timestamps| - 1 ==> b + 1 == |timestamps| - 1 || timestamps[b + 1] > timestamp)
  }

  predicate NonDecreasing(timestamps: seq<int>) {
    forall i, j :: 0 <= i <= j < |timestamps| ==> timestamps[i] <= timestamps[j]
  }

  /** On a chain whose timestamps never decrease and whose block 1 is no later
      than the target, a crossing point below the last two blocks is exactly the
      last block at or before the target. */
  lemma CrossingIsLastAtOrBefore(timestamps: seq<int>, timestamp: int, b: int, k: int)
    requires NonDecreasing(timestamps) && |timestamps| > 1 && timestamps[1] <= timestamp
    requires IsCrossing(timestamps, timestamp, b) && b + 1 < |timestamps| - 1
    requires 1 <= k < |timestamps|
    ensures timestamps[k] <= timestamp <==> k <= b
  {
    if k <= b {
      assert timestamps[k] <= timestamps[b];
    } else {
      assert timestamps[b + 1] <= timestamps[k];
    }
  }
}
