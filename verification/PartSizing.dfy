/** The choice of the part size, and how parts of that size tile a file. */
module PartSizing {
  import opened Basics
  import opened Decimal
  import opened Int64
  import opened UploadTypes

  const DEFAULT_PART_SIZE: int := 20_971_520
  datatype Limits = Limits(partMinSize: int, partMaxSize: int, partMaxNum: int)

  datatype SizeError = InvalidLimits | FileTooLarge

  // The chosen size is within the limits on sizes, and needs no more parts than allowed when the
  // rounding sum fits; a refusal is right when the product of the limits fits.
  method MultipartPartSize(limits: Limits, size: int) returns (r: Result<int, SizeError>)
    requires 0 <= size < TWO63 && IsInt64(limits.partMaxNum) && IsInt64(limits.partMaxSize)
    ensures r == PartSizeFor(limits, size)
    ensures r == Err(InvalidLimits) <==> limits.partMinSize <= 0 || limits.partMaxSize <= 0 || limits.partMaxNum <= 0
    ensures r.Ok? ==> 1 <= r.value <= limits.partMaxSize
    ensures r.Ok? && limits.partMinSize <= limits.partMaxSize ==> limits.partMinSize <= r.value
    ensures r.Ok? && size + limits.partMaxNum <= TWO63 ==> PartCount(size, r.value) <= limits.partMaxNum
    ensures r == Err(FileTooLarge) && limits.partMaxSize * limits.partMaxNum < TWO63 ==>
      limits.partMaxSize * limits.partMaxNum < size
    // With limits given, only a file beyond their product, as it wraps, is refused.
    ensures limits.partMinSize > 0 && limits.partMaxSize > 0 && limits.partMaxNum > 0 ==>
      (r == Err(FileTooLarge) <==> Wrap(limits.partMaxSize * limits.partMaxNum) < size)
    // The default of 20 MiB is taken if it reaches and the limits allow it, else the one nearest to it.
    ensures r.Ok? && Wrap(20 * 1024 * 1024 * limits.partMaxNum) >= size ==>
      && (limits.partMinSize <= 20 * 1024 * 1024 <= limits.partMaxSize ==> r.value == 20 * 1024 * 1024)
      && (limits.partMaxSize < 20 * 1024 * 1024 ==> r.value == limits.partMaxSize)
      && (20 * 1024 * 1024 < limits.partMinSize <= limits.partMaxSize ==> r.value == limits.partMinSize)
    // Otherwise no smaller size within the limits would do.
    ensures r.Ok? && Wrap(20 * 1024 * 1024 * limits.partMaxNum) < size && size + limits.partMaxNum <= TWO63 ==>
      r.value <= limits.partMinSize || (r.value - 1) * limits.partMaxNum < size
  {
    GuaranteesOfChoice(limits, size);
    LeastThatReaches(limits, size);
    hide Wrap, Quotient, PartCount;
    if limits.partMinSize <= 0 || limits.partMaxSize <= 0 || limits.partMaxNum <= 0 {
      return Err(InvalidLimits);
    }
    if Wrap(limits.partMaxSize * limits.partMaxNum) < size {
      return Err(FileTooLarge);
    }
    var partSize := DEFAULT_PART_SIZE;
    if Wrap(partSize * limits.partMaxNum) < size {
      partSize := Quotient(Wrap(size + limits.partMaxNum - 1), limits.partMaxNum);
    }
    partSize := Max(partSize, limits.partMinSize);
    partSize := Min(partSize, limits.partMaxSize);
    return Ok(partSize);
  }

  function PartSizeFor(limits: Limits, size: int): Result<int, SizeError> {
    if limits.partMinSize <= 0 || limits.partMaxSize <= 0 || limits.partMaxNum <= 0 then Err(InvalidLimits)
    else if Wrap(limits.partMaxSize * limits.partMaxNum) < size then Err(FileTooLarge)
    else
      var wanted := if Wrap(DEFAULT_PART_SIZE * limits.partMaxNum) < size
                    then Quotient(Wrap(size + limits.partMaxNum - 1), limits.partMaxNum)
                    else DEFAULT_PART_SIZE;
      Ok(Min(Max(wanted, limits.partMinSize), limits.partMaxSize))
  }

  function PartCount(size: int, partSize: int): int
    requires partSize > 0
  {
    (size + partSize - 1) / partSize
  }

  // ceil(size / partSize) parts fit under a limit exactly when that many parts reach the size.
  lemma CountWithin(size: int, partSize: int, most: int)
    requires size >= 0 && partSize > 0
    ensures PartCount(size, partSize) <= most <==> most * partSize >= size
    ensures PartCount(size, partSize) >= 0
  {
    hide PartCount;
    var count := PartCount(size, partSize);
    CeilingBounds(size, partSize);
    if count <= most {
      ProductMonotone(count, most, partSize);
    } else {
      ProductMonotone(most, count - 1, partSize);
    }
  }

  lemma CeilingBounds(size: int, partSize: int)
    requires size >= 0 && partSize > 0
    ensures PartCount(size, partSize) * partSize >= size > (PartCount(size, partSize) - 1) * partSize
    ensures PartCount(size, partSize) >= 0
  {
    var total := size + partSize - 1;
    var count, rest := total / partSize, total % partSize;
    assert count * partSize + rest == total;
    assert (count - 1) * partSize == count * partSize - partSize;
  }

  // Whenever a part size is chosen it respects the limits, even when a product wraps around;
  // only the rounding sum must not overflow.
  lemma ChosenSizeRespectsLimits(limits: Limits, size: int, p: int)
    requires 0 <= size < TWO63 && limits.partMaxNum < TWO63 && limits.partMaxSize < TWO63
    requires size + limits.partMaxNum <= TWO63
    requires PartSizeFor(limits, size) == Ok(p)
    ensures 1 <= p <= limits.partMaxSize
    ensures limits.partMinSize <= limits.partMaxSize ==> p >= limits.partMinSize
    ensures PartCount(size, p) <= limits.partMaxNum
  {
    hide Wrap, PartCount;
    var num := limits.partMaxNum;
    ProductReaches(limits.partMaxSize, num, size);
    ProductReaches(DEFAULT_PART_SIZE, num, size);
    RoundingUp(size, num);
    CountWithin(size, num, PartCount(size, num));
    var wanted := if Wrap(DEFAULT_PART_SIZE * num) < size then PartCount(size, num) else DEFAULT_PART_SIZE;
    assert wanted * num >= size;
    ClampReaches(wanted, limits.partMinSize, limits.partMaxSize, num, size);
    CountWithin(size, p, num);
  }

  // Beyond that sum the number of parts is still kept exactly when the default size was large
  // enough or the smallest size is: the overflowed quotient counts for nothing.
  lemma PartLimitKeptExactly(limits: Limits, size: int, p: int)
    requires 0 <= size < TWO63 && limits.partMaxNum < TWO63 && limits.partMaxSize < TWO63
    requires PartSizeFor(limits, size) == Ok(p)
    ensures PartCount(size, p) <= limits.partMaxNum <==>
      || size + limits.partMaxNum <= TWO63
      || Wrap(DEFAULT_PART_SIZE * limits.partMaxNum) >= size
      || Min(limits.partMinSize, limits.partMaxSize) * limits.partMaxNum >= size
  {
    var num := limits.partMaxNum;
    if size + num <= TWO63 {
      ChosenSizeRespectsLimits(limits, size, p);
    } else {
      OverflowIsNegative(size, num);
      hide Wrap, PartCount, Quotient;
      ProductReaches(limits.partMaxSize, num, size);
      ProductReaches(DEFAULT_PART_SIZE, num, size);
      if Wrap(DEFAULT_PART_SIZE * num) >= size {
        ClampReaches(DEFAULT_PART_SIZE, limits.partMinSize, limits.partMaxSize, num, size);
      }
      CountWithin(size, p, num);
    }
  }

  lemma OverflowIsNegative(size: int, num: int)
    requires 0 <= size < TWO63 && 0 < num < TWO63 && size + num > TWO63
    ensures Quotient(Wrap(size + num - 1), num) <= 0
  {
    assert Wrap(size + num - 1) == size + num - 1 - TWO64;
    hide Wrap;
    QuotientOfNegative(size + num - 1 - TWO64, num);
  }

  lemma QuotientOfNegative(a: int, b: int)
    requires a < 0 && b > 0
    ensures Quotient(a, b) <= 0
  {
  }

  lemma ClampReaches(wanted: int, least: int, most: int, num: int, size: int)
    requires num > 0 && wanted * num >= size && most * num >= size
    ensures Min(Max(wanted, least), most) * num >= size
  {
    ProductMonotone(wanted, Max(wanted, least), num);
  }

  lemma RoundingUp(size: int, num: int)
    requires num > 0 && 0 <= size && size + num <= TWO63
    ensures Quotient(Wrap(size + num - 1), num) == PartCount(size, num)
  {
  }

  lemma ProductMonotone(a: int, b: int, num: int)
    requires a <= b && num >= 0
    ensures a * num <= b * num
  {
    assert (b - a) * num >= 0;
  }

  lemma ProductReaches(a: int, b: int, size: int)
    requires a > 0 && b > 0 && 0 <= size < TWO63
    ensures Wrap(a * b) >= size ==> a * b >= size
    ensures a * b < TWO63 ==> (Wrap(a * b) >= size <==> a * b >= size)
  {
    assert a * b > 0;
  }

  // A file is rejected when the limits do not reach it or their product wraps below it, so the
  // error is right exactly when the product does not wrap below the size.
  lemma TooLargeExactly(limits: Limits, size: int)
    requires limits.partMinSize > 0 && limits.partMaxSize > 0 && limits.partMaxNum > 0 && 0 <= size < TWO63
    ensures var most := limits.partMaxSize * limits.partMaxNum;
      && ((PartSizeFor(limits, size) == Err(FileTooLarge) <==> most < size) <==> (Wrap(most) >= size || most < size))
      && (most < TWO63 ==> (PartSizeFor(limits, size) == Err(FileTooLarge) <==> most < size))
  {
    ProductReaches(limits.partMaxSize, limits.partMaxNum, size);
  }

  lemma LeastThatReaches(limits: Limits, size: int)
    requires 0 <= size < TWO63 && IsInt64(limits.partMaxNum) && IsInt64(limits.partMaxSize)
    ensures var r := PartSizeFor(limits, size);
      r.Ok? && Wrap(DEFAULT_PART_SIZE * limits.partMaxNum) < size && size + limits.partMaxNum <= TWO63 ==>
        r.value <= limits.partMinSize || (r.value - 1) * limits.partMaxNum < size
  {
    var r, num := PartSizeFor(limits, size), limits.partMaxNum;
    if r.Ok? && Wrap(DEFAULT_PART_SIZE * num) < size && size + num <= TWO63 && r.value > limits.partMinSize {
      RoundingUp(size, num);
      CeilingBounds(size, num);
      hide Wrap, Quotient, PartCount;
      assert r.value <= PartCount(size, num);
      ProductMonotone(r.value - 1, PartCount(size, num) - 1, num);
    }
  }

  lemma GuaranteesOfChoice(limits: Limits, size: int)
    requires 0 <= size < TWO63 && IsInt64(limits.partMaxNum) && IsInt64(limits.partMaxSize)
    ensures var r := PartSizeFor(limits, size);
      && (r.Ok? ==> r.value >= 1)
      && (r.Ok? && size + limits.partMaxNum <= TWO63 ==> PartCount(size, r.value) <= limits.partMaxNum)
      && (r == Err(FileTooLarge) && limits.partMaxSize * limits.partMaxNum < TWO63 ==>
            limits.partMaxSize * limits.partMaxNum < size)
  {
    var r := PartSizeFor(limits, size);
    hide Wrap, Quotient, PartCount;
    assert r.Ok? ==> r.value >= 1;
    hide PartSizeFor;
    if r.Ok? && size + limits.partMaxNum <= TWO63 {
      ChosenSizeRespectsLimits(limits, size, r.value);
    }
    if r == Err(FileTooLarge) {
      RefusedLimits(limits, size);
      TooLargeExactly(limits, size);
    }
  }

  lemma RefusedLimits(limits: Limits, size: int)
    requires PartSizeFor(limits, size) == Err(FileTooLarge)
    ensures limits.partMinSize > 0 && limits.partMaxSize > 0 && limits.partMaxNum > 0
  {
    hide Wrap, Quotient;
  }

  // The number of parts as the code computes it, its sum wrapping around.
  function PartCount64(size: int, partSize: int): int
    requires partSize > 0
  {
    Quotient(Wrap(size + partSize - 1), partSize)
  }

  // It is the number of parts exactly when the sum fits; otherwise it is not even positive.
  lemma PartCountExactly(size: int, partSize: int)
    requires 0 < size < TWO63 && 0 < partSize < TWO63
    ensures PartCount64(size, partSize) == PartCount(size, partSize) <==> size + partSize <= TWO63
    ensures size + partSize > TWO63 ==> PartCount64(size, partSize) <= 0
  {
    CountWithin(size, partSize, 0);
    if size + partSize <= TWO63 {
      RoundingUp(size, partSize);
    } else {
      OverflowIsNegative(size, partSize);
    }
    hide Wrap, Quotient, PartCount;
  }

  // Limits whose product wraps reject a file that is far below them.
  lemma WrappedLimitsRejectSmallFile()
    ensures PartSizeFor(Limits(1, 0x1_0000_0000, 0x1_0000_0000), 1) == Err(FileTooLarge)
  {
    assert Wrap(0x1_0000_0000 * 0x1_0000_0000) == 0;
  }

  // When the rounding sum overflows, the chosen size can need more parts than allowed.
  lemma OverflowingSumBreaksLimit()
    ensures PartSizeFor(Limits(1, (TWO63 - 1) / 7, 7), TWO63 - 1) == Ok(1)
    ensures PartCount(TWO63 - 1, 1) > 7
  {
  }

  // The size of the part after `chunk` whole ones.
  function ExpectedSize(size: int, partSize: int, chunk: int): int {
    Min(partSize, size - chunk * partSize)
  }

  function SumOfParts(size: int, partSize: int, count: nat): int {
    if count == 0 then 0
    else SumOfParts(size, partSize, count - 1) + ExpectedSize(size, partSize, count - 1)
  }

  // The first parts cover what they should, so every part is positive and together they are the file.
  lemma {:induction false} PartsTile(size: int, partSize: int, count: nat)
    requires size > 0 && partSize > 0 && count <= PartCount(size, partSize)
    ensures SumOfParts(size, partSize, count) == Min(count * partSize, size)
    ensures forall i :: 0 <= i < count ==> 0 < ExpectedSize(size, partSize, i) <= partSize
    ensures count == PartCount(size, partSize) ==> SumOfParts(size, partSize, count) == size
    decreases count
  {
    CountWithin(size, partSize, count);
    if count > 0 {
      PartsTile(size, partSize, count - 1);
      CountWithin(size, partSize, count - 1);
      assert count * partSize == (count - 1) * partSize + partSize;
    }
  }

  // partinfo after the in-order upload of the first `count` parts.
  function InOrderInfo(size: int, partSize: int, etags: seq<string>, count: nat): (info: map<string, PartInfo>)
    requires count <= |etags|
    ensures forall key :: key in info <==> exists n :: 1 <= n <= count && key == Key(n)
  {
    if count == 0 then map[]
    else InOrderInfo(size, partSize, etags, count - 1)
           [Key(count) := PartInfo(etags[count - 1], ExpectedSize(size, partSize, count - 1))]
  }

  // The loop of uploadMultipart.  A part's answer is its ETag, or None when its request failed;
  // the upload stops at the first part without an ETag.
  method UploadInOrder(size: int, partSize: int, answers: seq<Option<string>>)
    returns (partInfo: map<string, PartInfo>, remaining: int, done: bool, ghost etags: seq<string>)
    requires size > 0 && partSize > 0 && |answers| == PartCount(size, partSize)
    ensures done <==> forall a :: a in answers ==> a.Some? && a.value != ""
    ensures |etags| <= |answers| && forall i :: 0 <= i < |etags| ==> answers[i] == Some(etags[i])
    ensures partInfo == InOrderInfo(size, partSize, etags, |etags|)
    ensures done ==> |etags| == |answers| && remaining == 0
  {
    var partCount := PartCount(size, partSize);
    partInfo, remaining, done, etags := map[], size, false, [];
    var part := 1;
    while part <= partCount
      invariant 1 <= part <= partCount + 1 && |etags| == part - 1
      invariant forall i :: 0 <= i < part - 1 ==> answers[i] == Some(etags[i]) && etags[i] != ""
      invariant remaining == size - SumOfParts(size, partSize, part - 1)
      invariant partInfo == InOrderInfo(size, partSize, etags, part - 1)
    {
      PartsTile(size, partSize, part - 1);
      CountWithin(size, partSize, part - 1);
      var chunkSize := Min(partSize, remaining);
      assert chunkSize == ExpectedSize(size, partSize, part - 1);
      if answers[part - 1].None? || answers[part - 1].value == "" {
        assert answers[part - 1] in answers;
        return;
      }
      partInfo := partInfo[Format(part) := PartInfo(answers[part - 1].value, chunkSize)];
      remaining := remaining - chunkSize;
      etags := etags + [answers[part - 1].value];
      InOrderSame(size, partSize, etags[..part - 1], etags, part - 1);
      assert etags[..part - 1] + [etags[part - 1]] == etags;
      part := part + 1;
    }
    PartsTile(size, partSize, partCount);
    done := true;
  }

  lemma {:induction false} InOrderSame(size: int, partSize: int, a: seq<string>, b: seq<string>, count: nat)
    requires count <= |a| && count <= |b| && a[..count] == b[..count]
    ensures InOrderInfo(size, partSize, a, count) == InOrderInfo(size, partSize, b, count)
    decreases count
  {
    if count > 0 {
      assert a[..count - 1] == a[..count][..count - 1];
      assert b[..count - 1] == b[..count][..count - 1];
      assert a[count - 1] == a[..count][count - 1];
      assert b[count - 1] == b[..count][count - 1];
      InOrderSame(size, partSize, a, b, count - 1);
    }
  }
}
