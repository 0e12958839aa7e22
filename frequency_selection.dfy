/**
 * The frequency selection both scripts run on an FFT before matching chords
 * (live_record_analyzer.py:97-105, analyse.py:14-26): keep the bins of
 * positive frequency, keep those whose magnitude is strictly above a tenth of
 * the largest positive-bin magnitude, then keep the frequencies inside the
 * guitar band [41, 660] Hz. The FFT itself is not modelled: the bins arrive as
 * (frequency, magnitude) pairs.
 */
module FrequencySelection {
  import opened Wrappers

  /** One FFT bin: `freqs[i]` in hertz and `fft_m[i]`. */
  type Bin = (real, real)

  /** `min_freq` and `max_freq`, the inclusive guitar band. */
  const MinFrequency: real := 41.0
  const MaxFrequency: real := 660.0

  /** The threshold is this fraction of the largest magnitude. */
  const ThresholdFactor: real := 0.1

  /** `freqs[freqs > 0]` and `fft_m[freqs > 0]`, kept paired. */
  function PositiveBins(bins: seq<Bin>): (r: seq<Bin>)
    ensures forall p | 0 <= p < |r| :: r[p].0 > 0.0
    ensures forall b | b in r :: b in bins
  {
    if bins == [] then []
    else (if bins[0].0 > 0.0 then [bins[0]] else []) + PositiveBins(bins[1..])
  }

  /** `np.max(positive_fft_m)`. */
  function MaxMagnitude(bins: seq<Bin>): (m: real)
    requires bins != []
    ensures forall i | 0 <= i < |bins| :: bins[i].1 <= m
    ensures exists i | 0 <= i < |bins| :: bins[i].1 == m
  {
    if |bins| == 1 then bins[0].1
    else
      var rest := MaxMagnitude(bins[1..]);
      assert forall i | 1 <= i < |bins| :: bins[i] == bins[1..][i - 1];
      if bins[0].1 > rest then bins[0].1 else rest
  }

  /** `positive_freqs[positive_fft_m > threshold]`. */
  function Significant(bins: seq<Bin>, threshold: real): seq<real> {
    if bins == [] then []
    else (if AboveThreshold(bins[0], threshold) then [bins[0].0] else []) + Significant(bins[1..], threshold)
  }

  predicate AboveThreshold(b: Bin, threshold: real) {
    b.1 > threshold
  }

  /** `significant_freqs[(significant_freqs >= min_freq) & (significant_freqs <= max_freq)]`. */
  function InBand(freqs: seq<real>): seq<real> {
    if freqs == [] then []
    else (if InGuitarBand(freqs[0]) then [freqs[0]] else []) + InBand(freqs[1..])
  }

  predicate InGuitarBand(f: real) {
    MinFrequency <= f <= MaxFrequency
  }

  /**
   * `filtered_freqs`, or `None` where `np.max` is asked for the maximum of an
   * empty array (no bin of positive frequency) and raises.
   */
  function SelectFrequencies(bins: seq<Bin>): Option<seq<real>> {
    var positive := PositiveBins(bins);
    if positive == [] then None
    else Some(InBand(Significant(positive, MaxMagnitude(positive) * ThresholdFactor)))
  }

  /** `m` is the largest magnitude among the bins of positive frequency. */
  ghost predicate IsPositiveMax(bins: seq<Bin>, m: real) {
    && (forall i | 0 <= i < |bins| && bins[i].0 > 0.0 :: bins[i].1 <= m)
    && (exists i | 0 <= i < |bins| :: bins[i].0 > 0.0 && bins[i].1 == m)
  }

  /** The three filters in one pass: positive, above the threshold, inside the band. */
  function Kept(bins: seq<Bin>, threshold: real): seq<real> {
    if bins == [] then []
    else
      var b := bins[0];
      (if b.0 > 0.0 && b.1 > threshold && MinFrequency <= b.0 <= MaxFrequency then [b.0] else [])
        + Kept(bins[1..], threshold)
  }

  lemma {:induction false} PositiveBinsMembers(bins: seq<Bin>)
    ensures forall b | b in bins && b.0 > 0.0 :: b in PositiveBins(bins)
    ensures PositiveBins(bins) == [] <==> forall i | 0 <= i < |bins| :: bins[i].0 <= 0.0
  {
    if bins != [] {
      PositiveBinsMembers(bins[1..]);
      assert forall i | 1 <= i < |bins| :: bins[i] == bins[1..][i - 1];
      assert forall b | b in bins :: b == bins[0] || b in bins[1..];
    }
  }

  lemma {:induction false} InBandAppend(a: seq<real>, b: seq<real>)
    ensures InBand(a + b) == InBand(a) + InBand(b)
  {
    if a != [] {
      assert (a + b)[1..] == a[1..] + b;
      InBandAppend(a[1..], b);
    } else {
      assert a + b == b;
    }
  }

  lemma {:induction false} KeptInPasses(bins: seq<Bin>, threshold: real)
    ensures Kept(bins, threshold) == InBand(Significant(PositiveBins(bins), threshold))
  {
    if bins != [] {
      KeptInPasses(bins[1..], threshold);
      var head := if bins[0].0 > 0.0 then [bins[0]] else [];
      assert PositiveBins(bins) == head + PositiveBins(bins[1..]);
      SignificantAppend(head, PositiveBins(bins[1..]), threshold);
      InBandAppend(Significant(head, threshold), Significant(PositiveBins(bins[1..]), threshold));
    }
  }

  lemma {:induction false} SignificantAppend(a: seq<Bin>, b: seq<Bin>, threshold: real)
    ensures Significant(a + b, threshold) == Significant(a, threshold) + Significant(b, threshold)
  {
    if a != [] {
      assert (a + b)[1..] == a[1..] + b;
      SignificantAppend(a[1..], b, threshold);
    } else {
      assert a + b == b;
    }
  }

  lemma {:induction false} KeptMembership(bins: seq<Bin>, threshold: real, f: real)
    ensures f in Kept(bins, threshold) <==>
      exists i | 0 <= i < |bins| ::
        bins[i].0 == f && f > 0.0 && bins[i].1 > threshold && MinFrequency <= f <= MaxFrequency
  {
    if bins != [] {
      KeptMembership(bins[1..], threshold, f);
      assert forall i | 1 <= i < |bins| :: bins[i] == bins[1..][i - 1];
    }
  }

  /** `np.max(positive_fft_m)` is the largest magnitude among the bins of positive frequency. */
  lemma PositiveMaxIsMaxMagnitude(bins: seq<Bin>, m: real)
    requires IsPositiveMax(bins, m)
    ensures PositiveBins(bins) != [] && MaxMagnitude(PositiveBins(bins)) == m
  {
    PositiveBinsMembers(bins);
    var positive := PositiveBins(bins);
    var i :| 0 <= i < |bins| && bins[i].0 > 0.0 && bins[i].1 == m;
    assert bins[i] in positive;
    var p :| 0 <= p < |positive| && positive[p] == bins[i];
    var top := MaxMagnitude(positive);
    var j :| 0 <= j < |positive| && positive[j].1 == top;
    assert positive[j] in positive;
    var k :| 0 <= k < |bins| && bins[k] == positive[j];
    assert m <= top && top <= m;
  }

  /**
   * With `m` the largest positive-bin magnitude, the selection is the
   * one-pass filter with the threshold a tenth of `m`.
   */
  lemma SelectionIsOnePass(bins: seq<Bin>, m: real)
    requires IsPositiveMax(bins, m)
    ensures SelectFrequencies(bins) == Some(Kept(bins, m * ThresholdFactor))
  {
    PositiveMaxIsMaxMagnitude(bins, m);
    KeptInPasses(bins, m * ThresholdFactor);
  }

  lemma NoPositiveBin(bins: seq<Bin>)
    ensures SelectFrequencies(bins).None? <==> forall i | 0 <= i < |bins| :: bins[i].0 <= 0.0
  {
    PositiveBinsMembers(bins);
  }

  /**
   * A frequency is kept exactly when some bin has it, it is positive, its
   * magnitude is strictly above a tenth of the positive maximum and it lies
   * in [41, 660].
   */
  lemma SelectionMembership(bins: seq<Bin>, m: real, f: real)
    requires IsPositiveMax(bins, m)
    ensures SelectFrequencies(bins).Some?
    ensures f in SelectFrequencies(bins).value <==>
      exists i | 0 <= i < |bins| ::
        && bins[i].0 == f && f > 0.0
        && bins[i].1 > m * ThresholdFactor
        && MinFrequency <= f <= MaxFrequency
  {
    SelectionIsOnePass(bins, m);
    KeptMembership(bins, m * ThresholdFactor, f);
  }

  /** Silence: with every magnitude zero the threshold is zero and nothing passes it. */
  lemma {:induction false} SilenceKeepsNothing(bins: seq<Bin>)
    requires exists i | 0 <= i < |bins| :: bins[i].0 > 0.0
    requires forall i | 0 <= i < |bins| :: bins[i].1 == 0.0
    ensures SelectFrequencies(bins) == Some([])
  {
    assert IsPositiveMax(bins, 0.0);
    SelectionIsOnePass(bins, 0.0);
    KeptNothingAboveMax(bins, 0.0);
  }

  lemma {:induction false} KeptNothingAboveMax(bins: seq<Bin>, threshold: real)
    requires forall i | 0 <= i < |bins| :: bins[i].1 <= threshold
    ensures Kept(bins, threshold) == []
  {
    if bins != [] {
      assert forall i | 1 <= i < |bins| :: bins[i] == bins[1..][i - 1];
      KeptNothingAboveMax(bins[1..], threshold);
    }
  }

  /** `np.unique(librosa.hz_to_note(filtered_freqs, octave=False))`, with the pitch naming a parameter. */
  function DetectedNotes(freqs: seq<real>, noteOf: real -> string): set<string> {
    set f | f in freqs :: noteOf(f)
  }

  lemma BandEdgesMax(bins: seq<Bin>)
    requires bins == [(41.0, 1.0), (660.0, 1.0), (40.9, 1.0), (660.1, 1.0), (100.0, 0.1), (-50.0, 5.0)]
    ensures IsPositiveMax(bins, 1.0)
  {
    forall i | 0 <= i < |bins| && bins[i].0 > 0.0
      ensures bins[i].1 <= 1.0
    {
      assert i == 0 || i == 1 || i == 2 || i == 3 || i == 4 || i == 5;
    }
    assert bins[0].0 > 0.0 && bins[0].1 == 1.0;
  }

  /**
   * Both band edges are kept and the frequencies just outside are not; a bin
   * at exactly the threshold is dropped; a negative-frequency bin takes no
   * part in the maximum even when it is the loudest.
   */
  lemma BandEdges(bins: seq<Bin>)
    requires bins == [(41.0, 1.0), (660.0, 1.0), (40.9, 1.0), (660.1, 1.0), (100.0, 0.1), (-50.0, 5.0)]
    ensures SelectFrequencies(bins) == Some([41.0, 660.0])
  {
    BandEdgesMax(bins);
    SelectionIsOnePass(bins, 1.0);
    var t := 1.0 * ThresholdFactor;
    assert Kept(bins[5..], t) == [] by {
      assert bins[5..][1..] == [];
    }
    assert Kept(bins[4..], t) == [] by {
      assert bins[4..][1..] == bins[5..];
    }
    assert Kept(bins[3..], t) == [] by {
      assert bins[3..][1..] == bins[4..];
    }
    assert Kept(bins[2..], t) == [] by {
      assert bins[2..][1..] == bins[3..];
    }
    assert Kept(bins[1..], t) == [660.0] by {
      assert bins[1..][1..] == bins[2..];
    }
    assert Kept(bins, t) == [41.0, 660.0];
  }
  lemma LoudOutOfBandMax(bins: seq<Bin>)
    requires bins == [(100.0, 1.0), (700.0, 20.0)]
    ensures IsPositiveMax(bins, 20.0)
  {
    forall i | 0 <= i < |bins| && bins[i].0 > 0.0
      ensures bins[i].1 <= 20.0
    {
      assert i == 0 || i == 1;
    }
    assert bins[1].0 > 0.0 && bins[1].1 == 20.0;
  }

  /**
   * The maximum is taken before the band filter: a loud bin at 700 Hz, itself
   * outside the band, raises the threshold to 2.0 and the in-band bin at
   * 100 Hz is dropped, though it is the loudest bin inside the band.
   */
  lemma LoudOutOfBandBin(bins: seq<Bin>)
    requires bins == [(100.0, 1.0), (700.0, 20.0)]
    ensures SelectFrequencies(bins) == Some([])
  {
    LoudOutOfBandMax(bins);
    SelectionIsOnePass(bins, 20.0);
    var t := 20.0 * ThresholdFactor;
    assert Kept(bins[1..], t) == [] by {
      assert bins[1..][1..] == [];
    }
  }
}
