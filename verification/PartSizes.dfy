/** How a large object is cut into the parts of a multipart upload. */
module PartSizes {

  const MIB: nat := 1048576
  const DEFAULT_PART_SIZE: nat := 5 * MIB

  function FirstChoice(minPartSize: nat): nat {
    if minPartSize == 0 then DEFAULT_PART_SIZE else minPartSize
  }

  /** Whether the default would need more than the allowed number of parts. */
  predicate Enlarged(minPartSize: nat, maxCount: nat, size: nat) {
    size > FirstChoice(minPartSize) * maxCount
  }

  function ChoosePartSize(minPartSize: nat, maxCount: nat, size: nat): (r: nat)
    requires maxCount > 0
    ensures r > 0
  {
    if Enlarged(minPartSize, maxCount, size) then
      QuotientPositive(minPartSize, maxCount, size);
      ((size / maxCount - 1) / MIB + 1) * MIB
    else FirstChoice(minPartSize)
  }

  /** The number of parts. */
  function Count(size: nat, partSize: nat): nat
    requires size > 0 && partSize > 0
  {
    (size - 1) / partSize + 1
  }

  /** The length of part i, the last one takes what is left. */
  function PartLen(size: nat, partSize: nat, i: nat): int
    requires size > 0 && partSize > 0
  {
    if i == Count(size, partSize) - 1 then size - i * partSize else partSize
  }

  // ---- Small facts of division -----------------------------------------------------------------------

  lemma MulMono(a: int, b: int, c: nat)
    requires a <= b
    ensures a * c <= b * c
  {
    assert (b - a) * c >= 0;
    assert b * c == a * c + (b - a) * c;
  }

  lemma DivBounds(n: nat, d: nat)
    requires d > 0
    ensures n / d * d <= n < n / d * d + d
  {
    assert n == n / d * d + n % d;
  }

  lemma QuotientPositive(minPartSize: nat, maxCount: nat, size: nat)
    requires maxCount > 0 && Enlarged(minPartSize, maxCount, size)
    ensures size / maxCount >= 1
  {
    MulMono(1, FirstChoice(minPartSize), maxCount);
    DivBounds(size, maxCount);
  }

  /** Rounding up to whole MiB. */
  lemma RoundedUp(q: nat)
    requires q > 0
    ensures q <= ((q - 1) / MIB + 1) * MIB < q + MIB
    ensures ((q - 1) / MIB + 1) * MIB == q <==> q % MIB == 0
  {}

  /** The part size is the smallest allowed one, or 5 MiB if none is named, while that many of them hold the object,
      and else the share of each part, in whole bytes, rounded up to the next whole MiB. */
  lemma ChoiceIs(minPartSize: nat, maxCount: nat, size: nat)
    requires maxCount > 0
    ensures var p, first := ChoosePartSize(minPartSize, maxCount, size),
                            if minPartSize == 0 then 5 * 1024 * 1024 else minPartSize;
      if size <= first * maxCount then p == first
      else p % (1024 * 1024) == 0 && size / maxCount <= p < size / maxCount + 1024 * 1024
  {
    if Enlarged(minPartSize, maxCount, size) {
      QuotientPositive(minPartSize, maxCount, size);
      RoundedUp(size / maxCount);
    }
  }

  // ---- Tiling -------------------------------------------------------------------------------------------

  /** Every part is non-empty, starts where the one before ends, and the last ends at the end. */
  lemma PartsTile(size: nat, partSize: nat, i: nat)
    requires size > 0 && partSize > 0 && i < Count(size, partSize)
    ensures 0 < PartLen(size, partSize, i) <= partSize
    ensures var end := i * partSize + PartLen(size, partSize, i);
      if i == Count(size, partSize) - 1 then end == size else end == (i + 1) * partSize < size
  {
    DivBounds(size - 1, partSize);
    var last := (size - 1) / partSize;
    assert (i + 1) * partSize == i * partSize + partSize;
    if i < last { MulMono(i + 1, last, partSize); }
  }

  // ---- The number of parts --------------------------------------------------------------------------------

  lemma CountAtMost(size: nat, partSize: nat, m: nat)
    requires size > 0 && partSize > 0
    ensures Count(size, partSize) <= m <==> size <= m * partSize
  {
    DivBounds(size - 1, partSize);
    var last := (size - 1) / partSize;
    if last + 1 <= m { MulMono(last + 1, m, partSize); assert (last + 1) * partSize == last * partSize + partSize; }
    else { MulMono(m, last, partSize); }
  }

  /** At most MaxCount parts, or one more: exactly when the enlarged size is MaxCount's whole share
      rounded down, which happens if that share is whole MiB and leaves a remainder. */
  lemma PartCount(minPartSize: nat, maxCount: nat, size: nat)
    requires 0 < maxCount <= MIB && size > 0
    ensures var n := Count(size, ChoosePartSize(minPartSize, maxCount, size));
      && n <= maxCount + 1
      && (n == maxCount + 1 <==>
            Enlarged(minPartSize, maxCount, size) && size / maxCount % MIB == 0 && size % maxCount != 0)
  {
    var p := ChoosePartSize(minPartSize, maxCount, size);
    CountAtMost(size, p, maxCount);
    CountAtMost(size, p, maxCount + 1);
    if Enlarged(minPartSize, maxCount, size) {
      var q, r := size / maxCount, size % maxCount;
      QuotientPositive(minPartSize, maxCount, size);
      RoundedUp(q);
      assert size == q * maxCount + r;
      assert (maxCount + 1) * p == p * maxCount + p && maxCount * p == p * maxCount;
      if p == q {
        assert q >= MIB;
      } else {
        MulMono(q + 1, p, maxCount);
        assert (q + 1) * maxCount == q * maxCount + maxCount;
      }
    } else {
      assert maxCount * p == p * maxCount;
      MulMono(0, p, maxCount);
    }
  }

  /** 60 GB and one byte under the usual limit of ten thousand parts: the upload needs one part too many. */
  lemma TooManyParts()
    ensures Count(62914560001, ChoosePartSize(0, 10000, 62914560001)) == 10001
  {
    assert 62914560001 / 10000 == 6 * MIB;
  }

  // ---- Resuming ----------------------------------------------------------------------------------------------

  /** Choosing again from the saved part size gives the same size, so the old parts keep their ranges. */
  lemma Stable(minPartSize: nat, maxCount: nat, size: nat)
    requires maxCount > 0
    ensures var p := ChoosePartSize(minPartSize, maxCount, size);
      ChoosePartSize(p, maxCount, size) == p
  {
    var p := ChoosePartSize(minPartSize, maxCount, size);
    if Enlarged(minPartSize, maxCount, size) {
      var q := size / maxCount;
      QuotientPositive(minPartSize, maxCount, size);
      RoundedUp(q);
      DivBounds(size, maxCount);
      if p > q {
        MulMono(q + 1, p, maxCount);
        assert (q + 1) * maxCount == q * maxCount + maxCount;
      }
    }
  }

  /** Part sizes are whole MiB when the smallest allowed one is. */
  lemma WholeMiB(minPartSize: nat, maxCount: nat, size: nat)
    requires maxCount > 0 && minPartSize % MIB == 0
    ensures ChoosePartSize(minPartSize, maxCount, size) % MIB == 0
  {}
}
