/** The delta samplers `calculateDeltaRotation` and `calculateDeltaDolly`,
    one axis at a time. Each axis keeps a memo of the value it saw last,
    initially undefined; a sample first runs `memo = memo || current`, then
    returns `current - memo` and memoises `current`. */
module Sampling {
  import opened Wrappers

  /** The values JavaScript's `||` treats as unset: undefined and 0. */
  predicate Falsy(memo: Option<real>)
  {
    memo.None? || memo.value == 0.0
  }

  /** `memo || current`. */
  function Recall(memo: Option<real>, current: real): real
  {
    if Falsy(memo) then current else memo.value
  }

  /** The delta one sample of an axis returns. */
  function SampleDelta(memo: Option<real>, current: real): real
  {
    current - Recall(memo, current)
  }

  /** A sample returns zero when the memo is unset or exactly 0, whatever the
      current value is, and otherwise the distance travelled since the memo. */
  lemma SampleDeltaMeaning(memo: Option<real>, current: real)
    ensures Falsy(memo) ==> SampleDelta(memo, current) == 0.0
    ensures !Falsy(memo) ==> SampleDelta(memo, current) == current - memo.value
  {
  }

  /** Sampling memoises the current value, so a second sample with nothing
      moved in between returns 0. */
  lemma ResampleIsZero(current: real)
    ensures SampleDelta(Some(current), current) == 0.0
  {
  }

  /** The sum of the deltas of successive samples of the values `values`,
      starting from the memo `memo`. */
  function SampledTotal(memo: Option<real>, values: seq<real>): real
    decreases |values|
  {
    if values == [] then 0.0
    else SampleDelta(memo, values[0]) + SampledTotal(Some(values[0]), values[1..])
  }

  /** No motion is lost or counted twice while no sampled value is exactly 0:
      the deltas of successive samples add up to the last value minus the
      first memo. */
  lemma {:induction false} SampledTotalTelescopes(memo: real, values: seq<real>)
    requires memo != 0.0 && |values| > 0
    requires forall i :: 0 <= i < |values| - 1 ==> values[i] != 0.0
    ensures SampledTotal(Some(memo), values) == values[|values| - 1] - memo
    decreases |values|
  {
    if |values| > 1 {
      SampledTotalTelescopes(values[0], values[1..]);
    }
  }

  /** A sampled value of exactly 0 swallows the motion of the next sample:
      the memo 0 reads as unset, so that sample returns 0 wherever the axis
      has moved to. */
  lemma {:induction false} ZeroMemoSwallowsMotion(memo: Option<real>, next: real)
    ensures SampledTotal(memo, [0.0, next]) == SampledTotal(memo, [0.0])
    ensures next != 0.0 ==> SampledTotal(memo, [0.0, next]) != SampledTotal(memo, [0.0]) + next
  {
    assert [0.0, next][1..] == [next];
    assert SampledTotal(Some(next), []) == 0.0;
    assert SampledTotal(Some(0.0), [next]) == 0.0 by {
      assert [next][1..] == [];
    }
    assert SampledTotal(memo, [0.0]) == SampleDelta(memo, 0.0) by {
      assert [0.0][1..] == [];
      assert SampledTotal(Some(0.0), []) == 0.0;
    }
  }
}
