/** Labelled samples and their one-hot targets (wsnn/data.py). */
module Data {
  import opened Wrappers

  /** Length of the list `[0.0] * n`: a negative repeat count gives the empty list. */
  function RepeatLength(n: int): nat
  {
    if n < 0 then 0 else n
  }

  /** An index a list of length `len` accepts: `-len <= index < len`. */
  predicate ValidIndex(index: int, len: nat)
  {
    -(len as int) <= index < len
  }

  /** The position a valid index refers to; negative indices count from the end. */
  function Slot(index: int, len: nat): (k: nat)
    requires ValidIndex(index, len)
    ensures k < len
    ensures index >= 0 ==> k == index
    ensures index < 0 ==> k + (-index) == len
  {
    if index < 0 then index + len else index
  }

  /** The one-hot target: a list of `numLabels` zeros with 1.0 written at `index`.
      Writing outside the list raises IndexError, which callers must rule out. */
  function CreateOneHot(index: int, numLabels: int): (r: seq<real>)
    requires ValidIndex(index, RepeatLength(numLabels))
    ensures |r| == RepeatLength(numLabels)
    ensures r[Slot(index, |r|)] == 1.0
    ensures forall k | 0 <= k < |r| && k != Slot(index, |r|) :: r[k] == 0.0
  {
    var zeros := seq(RepeatLength(numLabels), _ => 0.0);
    zeros[Slot(index, |zeros|) := 1.0]
  }

  function Sum(s: seq<real>): real
  {
    if s == [] then 0.0 else s[0] + Sum(s[1..])
  }

  /** The positions holding a nonzero entry. */
  function NonZeroPositions(s: seq<real>): set<nat>
  {
    set k: nat | k < |s| && s[k] != 0.0
  }

  lemma {:induction false} SumOfZeros(s: seq<real>)
    requires forall k | 0 <= k < |s| :: s[k] == 0.0
    ensures Sum(s) == 0.0
  {
    if s != [] {
      SumOfZeros(s[1..]);
    }
  }

  lemma {:induction false} SumOfSingleOne(s: seq<real>, p: nat)
    requires p < |s| && s[p] == 1.0
    requires forall k | 0 <= k < |s| && k != p :: s[k] == 0.0
    ensures Sum(s) == 1.0
  {
    if p == 0 {
      SumOfZeros(s[1..]);
    } else {
      SumOfSingleOne(s[1..], p - 1);
    }
  }

  /** A one-hot target has exactly one nonzero entry, at the label's slot, and its entries sum to 1. */
  lemma OneHotIsOneHot(index: int, numLabels: int)
    requires ValidIndex(index, RepeatLength(numLabels))
    ensures var r := CreateOneHot(index, numLabels);
      NonZeroPositions(r) == {Slot(index, |r|)} && Sum(r) == 1.0
  {
    var r := CreateOneHot(index, numLabels);
    SumOfSingleOne(r, Slot(index, |r|));
  }

  /** A labelled sample. `expectedOutputs` is the target vector the cost compares against. */
  datatype DataPoint = DataPoint(inputs: seq<real>, labelIndex: int, numLabels: int, expectedOutputs: seq<real>)

  /** The IndexError `create_one_hot` raises when the label lies outside the target list. */
  datatype DataError = LabelOutOfRange

  /** The dataclass's post-initialisation step: an empty target is replaced by the label's
      one-hot vector; a supplied target is kept as it is, one-hot or not. */
  function PostInit(dp: DataPoint): (r: Result<DataPoint, DataError>)
    ensures dp.expectedOutputs != [] ==> r == Success(dp)
    ensures dp.expectedOutputs == [] ==>
      (r.Success? <==> ValidIndex(dp.labelIndex, RepeatLength(dp.numLabels)))
    ensures r.Success? ==>
      && r.value.inputs == dp.inputs
      && r.value.labelIndex == dp.labelIndex
      && r.value.numLabels == dp.numLabels
    ensures r.Success? && dp.expectedOutputs == [] ==>
      && |r.value.expectedOutputs| == RepeatLength(dp.numLabels)
      && r.value.expectedOutputs[Slot(dp.labelIndex, RepeatLength(dp.numLabels))] == 1.0
      && Sum(r.value.expectedOutputs) == 1.0
      && NonZeroPositions(r.value.expectedOutputs) == {Slot(dp.labelIndex, RepeatLength(dp.numLabels))}
    ensures r.Success? && dp.expectedOutputs == [] ==>
      r.value.expectedOutputs == CreateOneHot(dp.labelIndex, dp.numLabels)
  {
    if dp.expectedOutputs != [] then
      Success(dp)
    else if ValidIndex(dp.labelIndex, RepeatLength(dp.numLabels)) then
      OneHotIsOneHot(dp.labelIndex, dp.numLabels);
      Success(dp.(expectedOutputs := CreateOneHot(dp.labelIndex, dp.numLabels)))
    else
      Failure(LabelOutOfRange)
  }

  /** Building a `DataPoint(inputs, label, num_labels, expected_outputs)`: the fields are
      stored and then post-initialised. */
  function NewDataPoint(inputs: seq<real>, labelIndex: int, numLabels: int, expectedOutputs: seq<real>)
    : (r: Result<DataPoint, DataError>)
    ensures r.Success? ==> r.value.inputs == inputs && r.value.labelIndex == labelIndex && r.value.numLabels == numLabels
    ensures expectedOutputs != [] ==> r.Success? && r.value.expectedOutputs == expectedOutputs
    ensures expectedOutputs == [] ==>
      (r.Success? <==> ValidIndex(labelIndex, RepeatLength(numLabels)))
      && (r.Success? ==> r.value.expectedOutputs == CreateOneHot(labelIndex, numLabels))
  {
    PostInit(DataPoint(inputs, labelIndex, numLabels, expectedOutputs))
  }
}
