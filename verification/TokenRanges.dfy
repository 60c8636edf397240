/** Token-ring partitioning of services/sstable-loader/src/token_range.cpp, and what a range-by-range scan reads.

The header calls the ranges half-open; the code builds closed ranges and the queries compare with
`>=` and `<=`, so ranges are closed here.
*/
module TokenRanges {
  import opened MachineIntegers

  const MIN_TOKEN: int := -0x8000_0000_0000_0000
  const MAX_TOKEN: int := 0x7FFF_FFFF_FFFF_FFFF
  const TOKEN_SPACE: int := 0x1_0000_0000_0000_0000

  datatype TokenRange = TokenRange(start: int64, end: int64) {
    predicate Contains(token: int) {
      start <= token <= end
    }
  }

  /** The narrowing cast from the 128-bit arithmetic, wrap-around included. */
  function NarrowToInt64(x: int): int64 {
    var u := x % TOKEN_SPACE;
    if u < 0x8000_0000_0000_0000 then u else u - TOKEN_SPACE
  }

  lemma NarrowIsExact(x: int)
    requires MIN_TOKEN <= x <= MAX_TOKEN
    ensures NarrowToInt64(x) == x
  {
  }

  /** Nodes (3, or 1 when system.peers cannot be read) times 8 cores times ranges per core. */
  function TotalRanges(rangesPerCore: uint32, peersKnown: bool): (n: nat)
    ensures 1 <= rangesPerCore ==> 1 <= n <= 24 * 0xFFFF_FFFF
  {
    (if peersKnown then 3 else 1) * 8 * rangesPerCore
  }

  function RangeSize(n: nat): (size: nat)
    requires n >= 1
  {
    TOKEN_SPACE / n
  }

  /** The range that holds a token. */
  function Locate(n: nat, token: int64): int
    requires 1 <= n <= TOKEN_SPACE
  {
    SizeBounds(n);
    var k := (token - MIN_TOKEN) / RangeSize(n);
    if k < n then k else n - 1
  }

  lemma SizeBounds(n: nat)
    requires 1 <= n <= TOKEN_SPACE
    ensures 1 <= RangeSize(n)
    ensures n * RangeSize(n) <= TOKEN_SPACE < n * RangeSize(n) + n
  {
    var size := RangeSize(n);
    assert TOKEN_SPACE == size * n + TOKEN_SPACE % n;
  }

  lemma MulMonotone(a: int, b: int, c: int)
    requires a <= b && 0 <= c
    ensures a * c <= b * c
  {
  }

  /** Start of range `i`; `StartAt(n, n)` would be the start after the last equal-width range. */
  function StartAt(n: nat, i: nat): int
    requires n >= 1
  {
    MIN_TOKEN + i * RangeSize(n)
  }

  function EndAt(n: nat, i: nat): int
    requires n >= 1
  {
    if i == n - 1 then MAX_TOKEN else StartAt(n, i) + RangeSize(n) - 1
  }

  /** The bounds stay inside int64, every range is non-empty, and the next range starts right after. */
  lemma Bounds(n: nat, i: nat)
    requires 1 <= n <= TOKEN_SPACE && i < n
    ensures MIN_TOKEN <= StartAt(n, i) <= EndAt(n, i) <= MAX_TOKEN
    ensures i + 1 < n ==> EndAt(n, i) + 1 == StartAt(n, i + 1)
  {
    SizeBounds(n);
    var size := RangeSize(n);
    MulMonotone(i + 1, n, size);
    assert (i + 1) * size == i * size + size;
  }

  /** The token ranges are what the arithmetic says, with no loss in the casts. */
  ghost predicate IsPartition(ranges: seq<TokenRange>) {
    && 1 <= |ranges| <= TOKEN_SPACE
    && forall i :: 0 <= i < |ranges| ==>
         ranges[i].start == StartAt(|ranges|, i) && ranges[i].end == EndAt(|ranges|, i)
  }

  /** `calculate_ranges`: for every positive setting the ranges are non-empty, adjacent, and run from the
      smallest token to the largest. */
  method CalculateRanges(rangesPerCore: uint32, peersKnown: bool) returns (ranges: seq<TokenRange>)
    requires 1 <= rangesPerCore
    ensures |ranges| == (if peersKnown then 24 else 8) * rangesPerCore
    ensures IsPartition(ranges)
    ensures forall i :: 0 <= i < |ranges| ==> ranges[i].start <= ranges[i].end
    ensures forall i :: 0 <= i < |ranges| - 1 ==> ranges[i].end + 1 == ranges[i + 1].start
    ensures ranges[0].start == MIN_TOKEN && ranges[|ranges| - 1].end == MAX_TOKEN
  {
    var total := TotalRanges(rangesPerCore, peersKnown);
    var tokenSpace := MAX_TOKEN - MIN_TOKEN + 1;
    var size := tokenSpace / total;
    ranges := [];
    for i := 0 to total
      invariant |ranges| == i
      invariant forall j :: 0 <= j < i ==> ranges[j].start == StartAt(total, j) && ranges[j].end == EndAt(total, j)
    {
      var start := MIN_TOKEN + i * size;
      var end := if i == total - 1 then MAX_TOKEN else start + size - 1;
      Bounds(total, i);
      NarrowIsExact(start);
      NarrowIsExact(end);
      ranges := ranges + [TokenRange(NarrowToInt64(start), NarrowToInt64(end))];
    }
    forall i | 0 <= i < |ranges|
      ensures ranges[i].start <= ranges[i].end
      ensures i < |ranges| - 1 ==> ranges[i].end + 1 == ranges[i + 1].start
    {
      Bounds(total, i);
    }
  }

  /** Every token lies in exactly one range, the one the division finds. */
  lemma OneRangePerToken(ranges: seq<TokenRange>, token: int64)
    requires IsPartition(ranges)
    ensures 0 <= Locate(|ranges|, token) < |ranges|
    ensures forall i :: 0 <= i < |ranges| ==> (ranges[i].Contains(token) <==> i == Locate(|ranges|, token))
  {
    var n := |ranges|;
    SizeBounds(n);
    var size, offset := RangeSize(n), token - MIN_TOKEN;
    var k := offset / size;
    assert 0 <= k by { DivFacts(offset, size); }
    forall i | 0 <= i < n ensures ranges[i].Contains(token) <==> i == Locate(n, token) {
      DivFacts(offset, size);
      ContainsAsOffsets(ranges, token, i);
      QuotientUnique(offset, size, i);
      if k >= n {
        MulMonotone(i + 1, n, size);
      }
    }
  }

  lemma DivFacts(offset: int, size: int)
    requires 0 <= offset && 0 < size
    ensures 0 <= offset / size
    ensures offset / size * size <= offset < offset / size * size + size
  {
  }

  lemma ContainsAsOffsets(ranges: seq<TokenRange>, token: int64, i: nat)
    requires IsPartition(ranges) && i < |ranges|
    ensures var size, offset := RangeSize(|ranges|), token - MIN_TOKEN;
            ranges[i].Contains(token) <==>
              i * size <= offset && (i == |ranges| - 1 || offset < i * size + size)
  {
  }

  lemma QuotientUnique(offset: int, size: int, i: int)
    requires 0 <= offset && 0 < size
    ensures offset / size == i <==> i * size <= offset < i * size + size
    ensures i * size <= offset <==> i <= offset / size
  {
    var k := offset / size;
    DivFacts(offset, size);
    if i <= k {
      MulMonotone(i, k, size);
    } else {
      MulMonotone(k + 1, i, size);
      assert (k + 1) * size == k * size + size;
    }
    if i < k {
      MulMonotone(i + 1, k, size);
      assert (i + 1) * size == i * size + size;
    }
  }

  /** The last range takes the remainder: it is shorter than one step plus `n`, hence less than two steps while
      there are at most 2^32 ranges. */
  lemma LastRangeIsBounded(ranges: seq<TokenRange>)
    requires IsPartition(ranges)
    ensures var n := |ranges|; var length := ranges[n - 1].end - ranges[n - 1].start + 1;
            && RangeSize(n) <= length < RangeSize(n) + n
            && (n <= 0x1_0000_0000 ==> length < 2 * RangeSize(n))
  {
    var n := |ranges|;
    SizeBounds(n);
    var size := RangeSize(n);
    assert (n - 1) * size == n * size - size;
    if n <= 0x1_0000_0000 {
      if size < 0x1_0000_0000 {
        MulMonotone(size, 0xFFFF_FFFF, n);
        MulMonotone(n, 0x1_0000_0000, 0xFFFF_FFFF);
      }
    }
  }
}
