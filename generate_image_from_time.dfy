/**
 * Combining the time points of a dynamic volume into one image
 * (`generateImageFromTime`), and the per-voxel reductions `_sumData`,
 * `_avgData` and `_subData` written beside it. Voxel values are reals:
 * the Float32 rounding of the output buffer is not modelled.
 */
module DynamicVolume {
  import opened Wrappers

  /** The part of a dynamic image volume the operation reads: its time-point count and one scalar array per time point. */
  datatype DynamicImageVolume = DynamicImageVolume(numTimePoints: nat, scalarDataArrays: seq<seq<real>>)

  /** Every time point has one array and all arrays have the same voxel count. */
  predicate SameLength(arrays: seq<seq<real>>)
  {
    forall i :: 0 <= i < |arrays| ==> |arrays[i]| == |arrays[0]|
  }

  predicate Valid(volume: DynamicImageVolume)
  {
    |volume.scalarDataArrays| == volume.numTimePoints && SameLength(volume.scalarDataArrays)
  }

  /** The errors the operation raises; `MissingScalarData` is the TypeError of reading an absent array. */
  datatype GenerateError = TooFewTimePoints | TooManyTimePointsForSubtraction | MissingScalarData

  /** `frames`: the requested frame numbers if any were given, else every time point. */
  function Frames(volume: DynamicImageVolume, frameNumbers: Option<seq<int>>): (frames: seq<int>)
    ensures frameNumbers.Some? ==> frames == frameNumbers.value
    ensures frameNumbers.None? ==> |frames| == volume.numTimePoints
    ensures frameNumbers.None? ==> forall i :: 0 <= i < |frames| ==> frames[i] == i
  {
    match frameNumbers
    case Some(f) => f
    case None => seq(volume.numTimePoints, i => i)
  }

  // ---------------------------------------------------------------------
  // Specification of the combined image

  /** Voxel `j` is non-negative in each of the first `k` arrays. */
  predicate NonNegativeColumn(arrays: seq<seq<real>>, k: nat, j: nat)
    requires k <= |arrays| && SameLength(arrays) && (k > 0 ==> j < |arrays[0]|)
  {
    forall i :: 0 <= i < k ==> 0.0 <= arrays[i][j]
  }

  /** The sum of voxel `j` over the first `k` arrays. */
  function ColumnSum(arrays: seq<seq<real>>, k: nat, j: nat): (sum: real)
    requires k <= |arrays| && SameLength(arrays) && (k > 0 ==> j < |arrays[0]|)
  {
    if k == 0 then 0.0 else ColumnSum(arrays, k - 1, j) + arrays[k - 1][j]
  }

  /** A sum of non-negative voxel values is non-negative. */
  lemma {:induction false} ColumnSumNonNegative(arrays: seq<seq<real>>, k: nat, j: nat)
    requires k <= |arrays| && SameLength(arrays) && (k > 0 ==> j < |arrays[0]|)
    requires NonNegativeColumn(arrays, k, j)
    ensures 0.0 <= ColumnSum(arrays, k, j)
  {
    if k > 0 {
      ColumnSumNonNegative(arrays, k - 1, j);
    }
  }

  /**
   * Voxel `j` after the AVERAGE loop has visited `k` arrays when `j` is the
   * last voxel: after each array is added the running value is divided by
   * the array count.
   */
  function RunningAverage(arrays: seq<seq<real>>, k: nat, j: nat): (value: real)
    requires k <= |arrays| && SameLength(arrays) && (k > 0 ==> j < |arrays[0]|)
    ensures NonNegativeColumn(arrays, k, j) ==> 0.0 <= value <= ColumnSum(arrays, k, j)
  {
    if k == 0 then 0.0
    else
      var previous := RunningAverage(arrays, k - 1, j);
      var n := |arrays| as real;
      var value := (previous + arrays[k - 1][j]) / n;
      if NonNegativeColumn(arrays, k, j) then
        assert 0.0 <= previous + arrays[k - 1][j] <= ColumnSum(arrays, k, j);
        DivideByAtLeastOne(previous + arrays[k - 1][j], n);
        value
      else value
  }

  /** Dividing a non-negative value by a count of at least one does not increase it. */
  lemma DivideByAtLeastOne(x: real, n: real)
    requires 0.0 <= x && 1.0 <= n
    ensures 0.0 <= x / n <= x
  {
    assert x / n * n == x;
  }

  /** Voxel `j` after the SUM or AVERAGE loop has visited `k` arrays. */
  function Accumulated(operation: string, arrays: seq<seq<real>>, k: nat, j: nat): real
    requires k <= |arrays| && SameLength(arrays) && |arrays| > 0 && j < |arrays[0]|
  {
    if operation == "AVERAGE" && j == |arrays[0]| - 1 then RunningAverage(arrays, k, j) else ColumnSum(arrays, k, j)
  }

  /** The arrays the operation reads are there. */
  predicate Readable(operation: string, arrays: seq<seq<real>>)
  {
    |arrays| > 0 && SameLength(arrays) && (operation == "SUBTRACT" && |arrays[0]| > 0 ==> |arrays| >= 2)
  }

  /**
   * The image the operation produces: SUM adds every array, SUBTRACT takes
   * the second array from the first, AVERAGE adds every array except at the
   * last voxel, and any other operation leaves the zero image.
   */
  function Combined(operation: string, arrays: seq<seq<real>>): (image: seq<real>)
    requires Readable(operation, arrays)
    ensures |image| == |arrays[0]|
  {
    var n := |arrays[0]|;
    if operation == "SUM" then seq(n, j requires 0 <= j < n => ColumnSum(arrays, |arrays|, j))
    else if operation == "SUBTRACT" then seq(n, j requires 0 <= j < n => arrays[0][j] - arrays[1][j])
    else if operation == "AVERAGE" then seq(n, j requires 0 <= j < n => Accumulated(operation, arrays, |arrays|, j))
    else seq(n, j => 0.0)
  }

  /** The error the operation raises, checked in the order the code meets them. */
  function Precheck(volume: DynamicImageVolume, operation: string, frameNumbers: Option<seq<int>>): (error: Option<GenerateError>)
    ensures error == Some(TooFewTimePoints) <==> |Frames(volume, frameNumbers)| <= 1
    ensures error == Some(TooManyTimePointsForSubtraction) ==> operation == "SUBTRACT" && |Frames(volume, frameNumbers)| > 2
    ensures error.None? ==> |Frames(volume, frameNumbers)| >= 2 && |volume.scalarDataArrays| > 0
    ensures error.None? && operation == "SUBTRACT" ==>
              |Frames(volume, frameNumbers)| == 2 && (|volume.scalarDataArrays[0]| > 0 ==> |volume.scalarDataArrays| >= 2)
  {
    var frames, arrays := Frames(volume, frameNumbers), volume.scalarDataArrays;
    if |frames| <= 1 then Some(TooFewTimePoints)
    else if |arrays| == 0 then Some(MissingScalarData)
    else if operation == "SUBTRACT" && |frames| > 2 then Some(TooManyTimePointsForSubtraction)
    else if operation == "SUBTRACT" && |arrays| < 2 && |arrays[0]| > 0 then Some(MissingScalarData)
    else None
  }

  // ---------------------------------------------------------------------
  // The operation

  /** The SUM loops: every array added, voxel by voxel, into the zeroed buffer. */
  method AddAllFrames(typedArrays: seq<seq<real>>, finalArray: array<real>)
    requires Readable("SUM", typedArrays) && finalArray.Length == |typedArrays[0]|
    requires forall k :: 0 <= k < finalArray.Length ==> finalArray[k] == 0.0
    modifies finalArray
    ensures finalArray[..] == Combined("SUM", typedArrays)
  {
    var arrayLength := finalArray.Length;
    var i := 0;
    while i < |typedArrays|
      invariant 0 <= i <= |typedArrays|
      invariant forall k :: 0 <= k < arrayLength ==> finalArray[k] == ColumnSum(typedArrays, i, k)
    {
      var currentArray := typedArrays[i];
      var j := 0;
      while j < arrayLength
        invariant 0 <= j <= arrayLength
        invariant forall k :: 0 <= k < j ==> finalArray[k] == ColumnSum(typedArrays, i + 1, k)
        invariant forall k :: j <= k < arrayLength ==> finalArray[k] == ColumnSum(typedArrays, i, k)
      {
        finalArray[j] := finalArray[j] + currentArray[j];
        j := j + 1;
      }
      i := i + 1;
    }
  }

  /** The SUBTRACT loop: the second array taken from the first, voxel by voxel, into the zeroed buffer. */
  method SubtractSecondFromFirst(typedArrays: seq<seq<real>>, finalArray: array<real>)
    requires Readable("SUBTRACT", typedArrays) && finalArray.Length == |typedArrays[0]|
    requires forall k :: 0 <= k < finalArray.Length ==> finalArray[k] == 0.0
    modifies finalArray
    ensures finalArray[..] == Combined("SUBTRACT", typedArrays)
  {
    var arrayLength := finalArray.Length;
    var j := 0;
    while j < arrayLength
      invariant 0 <= j <= arrayLength
      invariant forall k :: 0 <= k < j ==> finalArray[k] == typedArrays[0][k] - typedArrays[1][k]
      invariant forall k :: j <= k < arrayLength ==> finalArray[k] == 0.0
    {
      finalArray[j] := finalArray[j] + (typedArrays[0][j] - typedArrays[1][j]);
      j := j + 1;
    }
  }

  /**
   * The AVERAGE loops as written: every array added into the zeroed buffer,
   * and the last voxel divided by the array count each time it is reached.
   */
  method AverageAsWrittenLoops(typedArrays: seq<seq<real>>, finalArray: array<real>)
    requires Readable("AVERAGE", typedArrays) && finalArray.Length == |typedArrays[0]|
    requires forall k :: 0 <= k < finalArray.Length ==> finalArray[k] == 0.0
    modifies finalArray
    ensures finalArray[..] == Combined("AVERAGE", typedArrays)
  {
    var arrayLength := finalArray.Length;
    var i := 0;
    while i < |typedArrays|
      invariant 0 <= i <= |typedArrays|
      invariant forall k :: 0 <= k < arrayLength ==> finalArray[k] == Accumulated("AVERAGE", typedArrays, i, k)
    {
      var currentArray := typedArrays[i];
      var j := 0;
      while j < arrayLength
        invariant 0 <= j <= arrayLength
        invariant forall k :: 0 <= k < j ==> finalArray[k] == Accumulated("AVERAGE", typedArrays, i + 1, k)
        invariant forall k :: j <= k < arrayLength ==> finalArray[k] == Accumulated("AVERAGE", typedArrays, i, k)
      {
        finalArray[j] := finalArray[j] + currentArray[j];
        if j == arrayLength - 1 {
          finalArray[j] := finalArray[j] / (|typedArrays| as real);
        }
        j := j + 1;
      }
      i := i + 1;
    }
  }

  /**
   * `generateImageFromTime`: fails as `Precheck` says, and otherwise returns
   * a new buffer, as long as the first array, holding `Combined`. The frame
   * numbers only decide the errors: every image is built from all arrays
   * (SUM, AVERAGE) or from the first two (SUBTRACT).
   */
  method GenerateImageFromTime(volume: DynamicImageVolume, operation: string, frameNumbers: Option<seq<int>>)
    returns (r: Result<array<real>, GenerateError>)
    requires Valid(volume)
    ensures Precheck(volume, operation, frameNumbers).Some? ==>
              r == Failure(Precheck(volume, operation, frameNumbers).value)
    ensures Precheck(volume, operation, frameNumbers).None? ==>
              r.Success? && r.value[..] == Combined(operation, volume.scalarDataArrays)
  {
    var frames := Frames(volume, frameNumbers);
    if |frames| <= 1 {
      return Failure(TooFewTimePoints);
    }
    var typedArrays := volume.scalarDataArrays;
    if |typedArrays| == 0 {
      return Failure(MissingScalarData);
    }
    var arrayLength := |typedArrays[0]|;
    var finalArray := new real[arrayLength](_ => 0.0);

    if operation == "SUM" {
      AddAllFrames(typedArrays, finalArray);
    } else if operation == "SUBTRACT" {
      if |frames| > 2 {
        return Failure(TooManyTimePointsForSubtraction);
      }
      if |typedArrays| < 2 && arrayLength > 0 {
        return Failure(MissingScalarData);
      }
      SubtractSecondFromFirst(typedArrays, finalArray);
    } else if operation == "AVERAGE" {
      AverageAsWrittenLoops(typedArrays, finalArray);
    } else {
      assert finalArray[..] == Combined(operation, typedArrays);
    }
    r := Success(finalArray);
  }

  // ---------------------------------------------------------------------
  // Properties of the combined image

  /**
   * AVERAGE holds the plain sums at every voxel but the last, the last one
   * divided after every array; an unknown operation gives zeros.
   */
  lemma AverageAsWritten(arrays: seq<seq<real>>, other: string, j: nat)
    requires Readable("AVERAGE", arrays) && j < |arrays[0]|
    requires other != "SUM" && other != "SUBTRACT" && other != "AVERAGE"
    ensures j < |arrays[0]| - 1 ==> Combined("AVERAGE", arrays)[j] == Combined("SUM", arrays)[j]
    ensures j == |arrays[0]| - 1 ==> Combined("AVERAGE", arrays)[j] == RunningAverage(arrays, |arrays|, j)
    ensures Combined(other, arrays)[j] == 0.0
  {
  }

  /** The mean over the time points of every voxel: what AVERAGE is evidently meant to give. */
  function MeanImage(arrays: seq<seq<real>>): (image: seq<real>)
    requires |arrays| > 0 && SameLength(arrays)
    ensures |image| == |arrays[0]|
  {
    var n := |arrays[0]|;
    seq(n, j requires 0 <= j < n => ColumnSum(arrays, |arrays|, j) / (|arrays| as real))
  }

  /**
   * Two time points of ones: the AVERAGE image as written is [2, 0.75]
   * where the mean image is [1, 1].
   */
  lemma AverageAsWrittenWitness()
    ensures Combined("AVERAGE", [[1.0, 1.0], [1.0, 1.0]]) == [2.0, 0.75]
    ensures MeanImage([[1.0, 1.0], [1.0, 1.0]]) == [1.0, 1.0]
  {
    var arrays := [[1.0, 1.0], [1.0, 1.0]];
    assert ColumnSum(arrays, 2, 0) == 2.0;
    assert ColumnSum(arrays, 2, 1) == 2.0;
    assert RunningAverage(arrays, 2, 1) == 0.75;
  }

  /** The sum of `k` copies of one array is `k` times its voxel. */
  lemma {:induction false} ColumnSumOfCopies(arrays: seq<seq<real>>, a: seq<real>, k: nat, j: nat)
    requires k <= |arrays| && SameLength(arrays) && j < |a|
    requires forall i :: 0 <= i < |arrays| ==> arrays[i] == a
    ensures ColumnSum(arrays, k, j) == (k as real) * a[j]
  {
    if k > 0 {
      ColumnSumOfCopies(arrays, a, k - 1, j);
    }
  }

  /** The mean of time points that are all the same image is that image. */
  lemma {:induction false} MeanOfIdenticalFrames(arrays: seq<seq<real>>, a: seq<real>)
    requires |arrays| > 0 && forall i :: 0 <= i < |arrays| ==> arrays[i] == a
    ensures MeanImage(arrays) == a
  {
    forall j | 0 <= j < |a| ensures MeanImage(arrays)[j] == a[j] {
      ColumnSumOfCopies(arrays, a, |arrays|, j);
    }
  }

  /**
   * AVERAGE as evidently intended: sum every array into a zeroed buffer,
   * then divide every voxel by the array count.
   */
  method AverageFrames(arrays: seq<seq<real>>) returns (finalArray: array<real>)
    requires |arrays| > 0 && SameLength(arrays)
    ensures finalArray[..] == MeanImage(arrays)
  {
    var arrayLength := |arrays[0]|;
    finalArray := new real[arrayLength](_ => 0.0);
    var i := 0;
    while i < |arrays|
      invariant 0 <= i <= |arrays| && finalArray.Length == arrayLength
      invariant forall k :: 0 <= k < arrayLength ==> finalArray[k] == ColumnSum(arrays, i, k)
    {
      var j := 0;
      while j < arrayLength
        invariant 0 <= j <= arrayLength
        invariant forall k :: 0 <= k < j ==> finalArray[k] == ColumnSum(arrays, i + 1, k)
        invariant forall k :: j <= k < arrayLength ==> finalArray[k] == ColumnSum(arrays, i, k)
      {
        finalArray[j] := finalArray[j] + arrays[i][j];
        j := j + 1;
      }
      i := i + 1;
    }
    var j := 0;
    while j < arrayLength
      invariant 0 <= j <= arrayLength
      invariant forall k :: 0 <= k < j ==> finalArray[k] == ColumnSum(arrays, |arrays|, k) / (|arrays| as real)
      invariant forall k :: j <= k < arrayLength ==> finalArray[k] == ColumnSum(arrays, |arrays|, k)
    {
      finalArray[j] := finalArray[j] / (|arrays| as real);
      j := j + 1;
    }
  }

  // ---------------------------------------------------------------------
  // Per-voxel helpers

  /**
   * The time data the helpers take: a list of per-voxel series (one entry
   * per frame), or the series of a single voxel.
   */
  datatype TimeData = PerVoxel(voxels: seq<seq<real>>) | SingleVoxel(samples: seq<real>)

  /** `Array.isArray(timeData[0])`: the data is a non-empty list of series. */
  predicate IsPerVoxel(timeData: TimeData)
  {
    timeData.PerVoxel? && |timeData.voxels| > 0
  }

  /** The entries `timeData[j]` that the one-dimensional branch reads. */
  function Samples(timeData: TimeData): seq<real>
  {
    if timeData.SingleVoxel? then timeData.samples else []
  }

  /** Every series the helper reads has at least `count` entries. */
  predicate Covers(timeData: TimeData, count: nat)
  {
    if IsPerVoxel(timeData) then forall i :: 0 <= i < |timeData.voxels| ==> count <= |timeData.voxels[i]|
    else count <= |Samples(timeData)|
  }

  /** The first `count` entries of a series are non-negative. */
  predicate NonNegativePrefix(series: seq<real>, count: nat)
    requires count <= |series|
  {
    forall i :: 0 <= i < count ==> 0.0 <= series[i]
  }

  /** The sum of the first `count` entries of a series. */
  function SeriesSum(series: seq<real>, count: nat): (sum: real)
    requires count <= |series|
  {
    if count == 0 then 0.0 else SeriesSum(series, count - 1) + series[count - 1]
  }

  /** A sum of non-negative samples is non-negative. */
  lemma {:induction false} SeriesSumNonNegative(series: seq<real>, count: nat)
    requires count <= |series| && NonNegativePrefix(series, count)
    ensures 0.0 <= SeriesSum(series, count)
  {
    if count > 0 {
      SeriesSumNonNegative(series, count - 1);
    }
  }

  /** What `_sumData` returns: one sum per voxel, or a single sum for one voxel. */
  function Sums(timeData: TimeData, count: nat): (sums: seq<real>)
    requires Covers(timeData, count)
    ensures |sums| == if IsPerVoxel(timeData) then |timeData.voxels| else 1
  {
    if IsPerVoxel(timeData) then
      seq(|timeData.voxels|, i requires 0 <= i < |timeData.voxels| => SeriesSum(timeData.voxels[i], count))
    else [SeriesSum(Samples(timeData), count)]
  }

  /** The `voxelSum` loop: adds up the first `count` entries of a series. */
  method SumFirst(series: seq<real>, count: nat) returns (voxelSum: real)
    requires count <= |series|
    ensures voxelSum == SeriesSum(series, count)
  {
    voxelSum := 0.0;
    var j := 0;
    while j < count
      invariant 0 <= j <= count
      invariant voxelSum == SeriesSum(series, j)
    {
      voxelSum := voxelSum + series[j];
      j := j + 1;
    }
  }

  /** `_sumData`: the sum over the first `|frames|` entries, per voxel or for the single voxel. */
  method SumData(timeData: TimeData, frames: seq<int>) returns (sumData: seq<real>)
    requires Covers(timeData, |frames|)
    ensures sumData == Sums(timeData, |frames|)
  {
    sumData := [];
    if IsPerVoxel(timeData) {
      var i := 0;
      while i < |timeData.voxels|
        invariant 0 <= i <= |timeData.voxels| && |sumData| == i
        invariant forall k :: 0 <= k < i ==> sumData[k] == SeriesSum(timeData.voxels[k], |frames|)
      {
        var voxelSum := SumFirst(timeData.voxels[i], |frames|);
        sumData := sumData + [voxelSum];
        i := i + 1;
      }
    } else {
      var voxelSum := SumFirst(Samples(timeData), |frames|);
      sumData := sumData + [voxelSum];
    }
  }

  /** `_avgData`: `_sumData` divided voxel by voxel by the frame count. */
  method AvgData(timeData: TimeData, frames: seq<int>) returns (avgData: seq<real>)
    requires Covers(timeData, |frames|) && |frames| > 0
    ensures |avgData| == |Sums(timeData, |frames|)|
    ensures forall i :: 0 <= i < |avgData| ==> avgData[i] == Sums(timeData, |frames|)[i] / (|frames| as real)
  {
    avgData := [];
    if IsPerVoxel(timeData) {
      var i := 0;
      while i < |timeData.voxels|
        invariant 0 <= i <= |timeData.voxels| && |avgData| == i
        invariant forall k :: 0 <= k < i ==> avgData[k] == SeriesSum(timeData.voxels[k], |frames|) / (|frames| as real)
      {
        var voxelSum := SumFirst(timeData.voxels[i], |frames|);
        avgData := avgData + [voxelSum / (|frames| as real)];
        i := i + 1;
      }
    } else {
      var voxelSum := SumFirst(Samples(timeData), |frames|);
      avgData := avgData + [voxelSum / (|frames| as real)];
    }
  }

  /** What `_subData` returns: the first entry minus the second, per voxel or for the single voxel. */
  function Differences(timeData: TimeData): (diffs: seq<real>)
    requires Covers(timeData, 2)
    ensures |diffs| == if IsPerVoxel(timeData) then |timeData.voxels| else 1
  {
    if IsPerVoxel(timeData) then
      seq(|timeData.voxels|, i requires 0 <= i < |timeData.voxels| => timeData.voxels[i][0] - timeData.voxels[i][1])
    else [Samples(timeData)[0] - Samples(timeData)[1]]
  }

  /** `_subData`: more than two frames is an error; otherwise the difference of the first two entries. */
  method SubData(timeData: TimeData, frames: seq<int>) returns (r: Result<seq<real>, GenerateError>)
    requires |frames| <= 2 ==> Covers(timeData, 2)
    ensures |frames| > 2 ==> r == Failure(TooManyTimePointsForSubtraction)
    ensures |frames| <= 2 ==> r == Success(Differences(timeData))
  {
    if |frames| > 2 {
      return Failure(TooManyTimePointsForSubtraction);
    }
    var subData := [];
    if IsPerVoxel(timeData) {
      var i := 0;
      while i < |timeData.voxels|
        invariant 0 <= i <= |timeData.voxels| && |subData| == i
        invariant forall k :: 0 <= k < i ==> subData[k] == timeData.voxels[k][0] - timeData.voxels[k][1]
      {
        subData := subData + [timeData.voxels[i][0] - timeData.voxels[i][1]];
        i := i + 1;
      }
    } else {
      subData := subData + [Samples(timeData)[0] - Samples(timeData)[1]];
    }
    assert subData == Differences(timeData);
    r := Success(subData);
  }

  /** The arrays of a volume rearranged as one series per voxel, one entry per time point. */
  function PerVoxelSeries(arrays: seq<seq<real>>): (series: seq<seq<real>>)
    requires |arrays| > 0 && SameLength(arrays)
    ensures |series| == |arrays[0]|
    ensures forall v :: 0 <= v < |series| ==> |series[v]| == |arrays|
  {
    seq(|arrays[0]|, v requires 0 <= v < |arrays[0]| => seq(|arrays|, f requires 0 <= f < |arrays| => arrays[f][v]))
  }

  /** Summing a voxel's series over the first `k` time points is summing the first `k` arrays at that voxel. */
  lemma {:induction false} SeriesSumIsColumnSum(arrays: seq<seq<real>>, v: nat, k: nat)
    requires |arrays| > 0 && SameLength(arrays) && v < |arrays[0]| && k <= |arrays|
    ensures SeriesSum(PerVoxelSeries(arrays)[v], k) == ColumnSum(arrays, k, v)
  {
    if k > 0 {
      SeriesSumIsColumnSum(arrays, v, k - 1);
    }
  }

  /**
   * On the same data laid out per voxel, `_sumData` over all time points
   * gives the SUM image, `_avgData` the mean image (not the AVERAGE image),
   * and with two time points `_subData` gives the SUBTRACT image.
   */
  lemma {:induction false} HelpersAgreeWithCombined(arrays: seq<seq<real>>)
    requires |arrays| > 0 && SameLength(arrays) && |arrays[0]| > 0
    ensures var timeData := PerVoxel(PerVoxelSeries(arrays));
            Covers(timeData, |arrays|) && Sums(timeData, |arrays|) == Combined("SUM", arrays)
    ensures var timeData := PerVoxel(PerVoxelSeries(arrays));
            forall v :: 0 <= v < |arrays[0]| ==>
              Sums(timeData, |arrays|)[v] / (|arrays| as real) == MeanImage(arrays)[v]
    ensures |arrays| == 2 ==> Differences(PerVoxel(PerVoxelSeries(arrays))) == Combined("SUBTRACT", arrays)
  {
    var timeData := PerVoxel(PerVoxelSeries(arrays));
    forall v | 0 <= v < |arrays[0]|
      ensures SeriesSum(PerVoxelSeries(arrays)[v], |arrays|) == ColumnSum(arrays, |arrays|, v)
    {
      SeriesSumIsColumnSum(arrays, v, |arrays|);
    }
  }
}
