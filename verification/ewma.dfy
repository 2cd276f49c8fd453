/** The integer moving average of voluntary context switch rates. */
module Ewma {
  import opened Words

  /** calc_avg, in the wrapping arithmetic of the source. */
  function CalcAvg(previous: U64, sample: U64): U64 {
    Wrap(Wrap(previous - previous / 4) + sample / 4)
  }

  /** The average after a whole sequence of samples. */
  function Average(start: U64, samples: seq<U64>): U64 {
    if samples == [] then start
    else CalcAvg(Average(start, samples[..|samples| - 1]), samples[|samples| - 1])
  }

  /** The rational average the comment of calc_avg promises: `3/4 old + 1/4 new`. */
  ghost function ExactAverage(start: U64, samples: seq<U64>): real {
    if samples == [] then start as real
    else 0.75 * ExactAverage(start, samples[..|samples| - 1]) + 0.25 * samples[|samples| - 1] as real
  }

  /** No step overflows, and the new average lies between the old one and the sample. */
  lemma StepStaysBetween(previous: U64, sample: U64)
    ensures CalcAvg(previous, sample) == previous - previous / 4 + sample / 4
    ensures Min(previous, sample) <= CalcAvg(previous, sample) <= Max(previous, sample)
  {
    var v := previous - previous / 4 + sample / 4;
    assert Min(previous, sample) <= v <= Max(previous, sample);
    assert Wrap(previous - previous / 4) == previous - previous / 4;
  }

  /** One step differs from the exact step by at most 3/4. */
  lemma StepRounding(previous: U64, sample: U64)
    ensures -0.75 <= CalcAvg(previous, sample) as real - (0.75 * previous as real + 0.25 * sample as real) <= 0.75
  {
    StepStaysBetween(previous, sample);
    var four := 4 * CalcAvg(previous, sample);
    assert four == 3 * previous + previous % 4 + sample - sample % 4;
    assert four as real == 3.0 * previous as real + (previous % 4) as real + sample as real - (sample % 4) as real;
  }

  /** The rounding errors never add up: whatever the samples, the integer average stays
      strictly within 3 of the rational one. */
  lemma {:induction false} AverageTracksExact(start: U64, samples: seq<U64>)
    ensures -3.0 < Average(start, samples) as real - ExactAverage(start, samples) < 3.0
  {
    if samples == [] {
    } else {
      var n := |samples| - 1;
      AverageTracksExact(start, samples[..n]);
      StepRounding(Average(start, samples[..n]), samples[n]);
    }
  }

  /** Any bounds of the start and the samples bound the average. */
  lemma {:induction false} AverageStaysWithin(start: U64, samples: seq<U64>, lo: int, hi: int)
    requires lo <= start <= hi
    requires forall i :: 0 <= i < |samples| ==> lo <= samples[i] <= hi
    ensures lo <= Average(start, samples) <= hi
  {
    if samples == [] {
    } else {
      var n := |samples| - 1;
      AverageStaysWithin(start, samples[..n], lo, hi);
      StepStaysBetween(Average(start, samples[..n]), samples[n]);
    }
  }

  lemma StepIsZeroIff(previous: U64, sample: U64)
    ensures CalcAvg(previous, sample) == 0 <==> previous == 0 && sample < 4
  {
    StepStaysBetween(previous, sample);
  }

  /** The average is zero exactly when it started at zero and no sample ever reached 4:
      once it is positive it never comes back down to zero. */
  lemma {:induction false} AverageIsZeroIff(start: U64, samples: seq<U64>)
    ensures Average(start, samples) == 0 <==>
              start == 0 && forall i :: 0 <= i < |samples| ==> samples[i] < 4
  {
    if samples == [] {
    } else {
      var n := |samples| - 1;
      var front := samples[..n];
      AverageIsZeroIff(start, front);
      StepIsZeroIff(Average(start, front), samples[n]);
      assert forall i :: 0 <= i < n ==> front[i] == samples[i];
    }
  }
}
