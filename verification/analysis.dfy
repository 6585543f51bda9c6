/** The detection decision of the sweep: given the FFT-shifted power spectrum
    of one block (one bin per sample), the noise floor is the spectrum's median,
    the peak is its maximum at the first index where it occurs, and a detection
    event is produced exactly when the peak exceeds floor + threshold. The peak
    bin is turned into a frequency relative to the tuned centre. */
module Analysis {
  import opened Common

  // ---------------------------------------------------------------------------
  // Order statistics: sorting, median, first maximum
  // ---------------------------------------------------------------------------

  ghost predicate SortedSeq(s: seq<real>) {
    forall i, j :: 0 <= i < j < |s| ==> s[i] <= s[j]
  }

  /** Inserts `x` into a sorted sequence before its first element not
      below `x`. */
  function Insert(x: real, t: seq<real>): (r: seq<real>)
    ensures |r| == |t| + 1
    ensures multiset(r) == multiset(t) + multiset{x}
  {
    if t == [] then [x]
    else if x <= t[0] then [x] + t
    else
      assert t == [t[0]] + t[1..];
      [t[0]] + Insert(x, t[1..])
  }

  /** Inserting into a sorted sequence keeps it sorted; the smaller of `x`
      and the old first element comes first. */
  lemma {:induction false} InsertSorted(x: real, t: seq<real>)
    requires SortedSeq(t)
    ensures Insert(x, t)[0] == if |t| > 0 && t[0] < x then t[0] else x
    ensures SortedSeq(Insert(x, t))
  {
    if t != [] && x > t[0] {
      InsertSorted(x, t[1..]);
      var rest := Insert(x, t[1..]);
      forall i, j | 0 <= i < j < |rest| + 1
        ensures ([t[0]] + rest)[i] <= ([t[0]] + rest)[j]
      {
        if i == 0 {
          assert rest[0] <= rest[j - 1];
        }
      }
    }
  }

  /** The spectrum in ascending order (what `np.median` sorts by). */
  function Sort(s: seq<real>): (r: seq<real>)
    ensures |r| == |s|
    ensures SortedSeq(r)
    ensures multiset(r) == multiset(s)
  {
    if s == [] then []
    else
      assert s == [s[0]] + s[1..];
      InsertSorted(s[0], Sort(s[1..]));
      Insert(s[0], Sort(s[1..]))
  }

  /** `np.median`: the middle element of the sorted values, or the mean of the
      two middle ones for an even count. */
  function Median(s: seq<real>): real
    requires |s| > 0
  {
    var t := Sort(s);
    var n := |t|;
    if n % 2 == 1 then t[n / 2] else (t[n / 2 - 1] + t[n / 2]) / 2.0
  }

  /** `np.argmax`: the first index at which the maximum occurs. */
  function ArgMax(s: seq<real>): (k: nat)
    requires |s| > 0
    ensures k < |s|
    ensures forall j :: 0 <= j < |s| ==> s[j] <= s[k]
    ensures forall j :: 0 <= j < k ==> s[j] < s[k]
  {
    if |s| == 1 then 0
    else
      var k' := ArgMax(s[1..]);
      assert forall j :: 1 <= j < |s| ==> s[j] == s[1..][j - 1];
      if s[0] >= s[1..][k'] then 0 else k' + 1
  }

  /** `np.max`. */
  function Peak(s: seq<real>): real
    requires |s| > 0
  {
    s[ArgMax(s)]
  }

  /** Every element of a sequence is between the first and the last element
      of its sorted copy. */
  lemma {:induction false} SortBounds(s: seq<real>)
    requires |s| > 0
    ensures |Sort(s)| == |s|
    ensures exists j :: 0 <= j < |s| && s[j] == Sort(s)[0]
    ensures Sort(s)[|s| - 1] <= Peak(s)
  {
    var t := Sort(s);
    assert t[0] in multiset(t);
    assert t[0] in multiset(s);
    var j :| 0 <= j < |s| && s[j] == t[0];
    assert t[|s| - 1] in multiset(t);
    assert t[|s| - 1] in multiset(s);
    var m :| 0 <= m < |s| && s[m] == t[|s| - 1];
  }

  /** Every element of a sorted sequence lies between its ends. */
  lemma SortedBetween(t: seq<real>, i: int)
    requires SortedSeq(t) && 0 <= i < |t|
    ensures t[0] <= t[i] <= t[|t| - 1]
  {
  }

  /** The noise floor is never above the peak and never below every bin. */
  lemma {:induction false} MedianWithinRange(s: seq<real>)
    requires |s| > 0
    ensures Median(s) <= Peak(s)
    ensures exists j :: 0 <= j < |s| && s[j] <= Median(s)
  {
    SortBounds(s);
    var t := Sort(s);
    var n := |s|;
    SortedBetween(t, n / 2);
    if n % 2 == 0 {
      SortedBetween(t, n / 2 - 1);
    }
    var m := Median(s);
    assert t[0] <= m <= t[n - 1];
    var j :| 0 <= j < n && s[j] == t[0];
    assert s[j] <= m;
  }

  // ---------------------------------------------------------------------------
  // Frequencies of bins
  // ---------------------------------------------------------------------------

  /** The frequency of bin `k` of an `n`-bin FFT-shifted spectrum captured at
      `centerHz` with sample rate `rateHz`: centre + (k - n div 2) * rate / n. */
  function BinFrequency(centerHz: real, rateHz: real, n: nat, k: int): real
    requires n > 0
  {
    centerHz + ((k - n / 2) as real) * (rateHz / n as real)
  }

  /** Every bin lies in the captured band [centre - rate/2, centre + rate/2). */
  lemma BinWithinCapturedBand(centerHz: real, rateHz: real, n: nat, k: nat)
    requires n > 0 && k < n && rateHz > 0.0
    ensures centerHz - rateHz / 2.0 <= BinFrequency(centerHz, rateHz, n, k) < centerHz + rateHz / 2.0
  {
    var w := rateHz / n as real;
    var d := (k - n / 2) as real;
    var half := (n as real) / 2.0;
    HalfBandWidth(rateHz, n);
    BinOffsetRange(n, k);
    ScaleInterval(d, half, w);
    var offset, edge := d * w, half * w;
    assert BinFrequency(centerHz, rateHz, n, k) == centerHz + offset;
    assert edge == rateHz / 2.0 && -edge <= offset < edge;
  }

  /** Half the bins times the bin width is half the sample rate. */
  lemma HalfBandWidth(rateHz: real, n: nat)
    requires n > 0 && rateHz > 0.0
    ensures rateHz / n as real > 0.0
    ensures ((n as real) / 2.0) * (rateHz / n as real) == rateHz / 2.0
  {
  }

  /** The offset of bin `k` from the centre bin, in bins. */
  lemma BinOffsetRange(n: nat, k: nat)
    requires k < n
    ensures -((n as real) / 2.0) <= (k - n / 2) as real < (n as real) / 2.0
  {
  }

  lemma ScaleInterval(d: real, half: real, w: real)
    requires -half <= d < half && w > 0.0
    ensures -(half * w) <= d * w < half * w
  {
    assert (d + half) * w >= 0.0;
    assert (half - d) * w > 0.0;
  }

  /** The intended frequency axis (the corrected half of the odd-length axis
      finding): one entry per bin, bin `i` labelled by the same rule as the
      peak frequency of a detection event at that bin. */
  function SpectrumAxis(centerHz: real, rateHz: real, n: nat): (axis: seq<real>)
    requires n > 0
    ensures |axis| == n
    ensures forall k :: 0 <= k < n ==> axis[k] == BinFrequency(centerHz, rateHz, n, k)
  {
    seq(n, i requires 0 <= i < n => BinFrequency(centerHz, rateHz, n, i))
  }

  /** The axis as the source computes it:
      `center + np.arange(-n // 2, n // 2) * (rate / n)`. */
  function SpectrumAxisAsWritten(centerHz: real, rateHz: real, n: nat): (axis: seq<real>)
    requires n > 0
    ensures |axis| == n
    ensures forall k :: 0 <= k < n ==> axis[k] == centerHz + (k - (n + 1) / 2) as real * (rateHz / n as real)
  {
    assert (-(n as int)) / 2 == -((n + 1) / 2);
    seq(n, i requires 0 <= i < n => centerHz + ((-(n as int)) / 2 + i) as real * (rateHz / n as real))
  }

  /** For the even lengths the sweep reads, the written axis is the intended one. */
  lemma AxisAsWrittenAgreesForEvenLength(centerHz: real, rateHz: real, n: nat)
    requires n > 0 && n % 2 == 0
    ensures SpectrumAxisAsWritten(centerHz, rateHz, n) == SpectrumAxis(centerHz, rateHz, n)
  {
    var a, b := SpectrumAxisAsWritten(centerHz, rateHz, n), SpectrumAxis(centerHz, rateHz, n);
    forall i | 0 <= i < n ensures a[i] == b[i] {
      assert (-(n as int)) / 2 == -(n / 2);
    }
  }

  /** For an odd length the written axis labels the centre bin (the peak bin
      of a pure carrier at the tuned frequency) one bin below the centre. */
  lemma AxisAsWrittenOffByOneForOddLength()
    ensures SpectrumAxisAsWritten(100.0, 5.0, 5)[2] == 99.0
    ensures BinFrequency(100.0, 5.0, 5, 2) == 100.0
  {
  }

  // ---------------------------------------------------------------------------
  // The detection decision
  // ---------------------------------------------------------------------------

  /** A detection as put on the result queue. */
  datatype DetectionEvent = DetectionEvent(
    timestamp: string,
    frequencyHz: real,
    centerFreqHz: real,
    powerDb: real,
    noiseFloorDb: real,
    relativePowerDb: real,
    bandId: string,
    bandName: string)

  /** A spectrum as published for display: frequency axis and power per bin. */
  datatype SpectrumFrame = SpectrumFrame(frequenciesHz: seq<real>, powerDb: seq<real>)

  /** The frame published for a spectrum, with the axis as the source
      computes it; none for an empty block, where the bin width divides by
      zero. */
  function Frame(spectrum: seq<real>, centerHz: real, rateHz: real): (f: Option<SpectrumFrame>)
    ensures f.Some? <==> |spectrum| > 0
    ensures f.Some? ==> f.value.powerDb == spectrum && |f.value.frequenciesHz| == |spectrum|
    ensures f.Some? ==> f.value.frequenciesHz == SpectrumAxisAsWritten(centerHz, rateHz, |spectrum|)
  {
    if |spectrum| == 0 then None
    else Some(SpectrumFrame(SpectrumAxisAsWritten(centerHz, rateHz, |spectrum|), spectrum))
  }

  /** For an even number of bins, as in every block of the sweep, the
      published axis labels each bin with the frequency a detection at that
      bin reports. */
  lemma FrameLabelsAgreeForEvenLength(spectrum: seq<real>, centerHz: real, rateHz: real)
    requires |spectrum| > 0 && |spectrum| % 2 == 0
    ensures Frame(spectrum, centerHz, rateHz).Some?
    ensures forall k :: 0 <= k < |spectrum| ==>
              Frame(spectrum, centerHz, rateHz).value.frequenciesHz[k]
              == BinFrequency(centerHz, rateHz, |spectrum|, k)
  {
    AxisAsWrittenAgreesForEvenLength(centerHz, rateHz, |spectrum|);
  }

  /** The event the analysis emits for one spectrum, if any. An empty spectrum
      makes `np.max` raise, which the analysis swallows: no event. */
  function Detect(spectrum: seq<real>, centerHz: real, rateHz: real, thresholdDb: real,
                  bandId: string, bandName: string, now: string): (r: Option<DetectionEvent>)
    ensures r.Some? <==> |spectrum| > 0 && Peak(spectrum) > Median(spectrum) + thresholdDb
    ensures r.Some? ==> r.value.relativePowerDb > thresholdDb
    ensures r.Some? ==> r.value.relativePowerDb >= 0.0
    ensures r.Some? ==> r.value.relativePowerDb == r.value.powerDb - r.value.noiseFloorDb
    ensures r.Some? ==> r.value.noiseFloorDb == Median(spectrum)
    ensures r.Some? ==> exists k :: 0 <= k < |spectrum| && spectrum[k] == r.value.powerDb
                                    && (forall j :: 0 <= j < |spectrum| ==> spectrum[j] <= spectrum[k])
                                    && (forall j :: 0 <= j < k ==> spectrum[j] < spectrum[k])
                                    && r.value.frequencyHz == BinFrequency(centerHz, rateHz, |spectrum|, k)
    ensures r.Some? ==> r.value.centerFreqHz == centerHz && r.value.timestamp == now
                        && r.value.bandId == bandId && r.value.bandName == bandName
  {
    if |spectrum| == 0 then None
    else
      var floor := Median(spectrum);
      var k := ArgMax(spectrum);
      var peak := spectrum[k];
      MedianWithinRange(spectrum);
      if peak > floor + thresholdDb then
        Some(DetectionEvent(now, BinFrequency(centerHz, rateHz, |spectrum|, k), centerHz,
                            peak, floor, peak - floor, bandId, bandName))
      else None
  }

  /** The boundary of the decision: a peak exactly at floor + threshold does
      not detect, and any peak above it detects with a relative power above
      the threshold. */
  lemma DetectionIsStrict(spectrum: seq<real>, centerHz: real, rateHz: real, thresholdDb: real,
                          bandId: string, bandName: string, now: string)
    requires |spectrum| > 0
    ensures Peak(spectrum) == Median(spectrum) + thresholdDb ==>
              Detect(spectrum, centerHz, rateHz, thresholdDb, bandId, bandName, now).None?
    ensures Peak(spectrum) > Median(spectrum) + thresholdDb ==>
              Detect(spectrum, centerHz, rateHz, thresholdDb, bandId, bandName, now).Some?
              && Detect(spectrum, centerHz, rateHz, thresholdDb, bandId, bandName, now).value.relativePowerDb
                 == Peak(spectrum) - Median(spectrum)
  {
  }

  /** A flat spectrum (all bins equal) never produces a detection for a
      non-negative threshold. */
  lemma {:induction false} FlatSpectrumNeverDetects(spectrum: seq<real>, centerHz: real, rateHz: real,
                                                     thresholdDb: real, bandId: string, bandName: string, now: string)
    requires |spectrum| > 0 && thresholdDb >= 0.0
    requires forall j :: 0 <= j < |spectrum| ==> spectrum[j] == spectrum[0]
    ensures Detect(spectrum, centerHz, rateHz, thresholdDb, bandId, bandName, now).None?
  {
    var t := Sort(spectrum);
    SortBounds(spectrum);
    var n := |spectrum|;
    assert forall k :: 0 <= k < n ==> t[k] in multiset(spectrum);
    forall k | 0 <= k < n ensures t[k] == spectrum[0] {
      assert t[k] in multiset(spectrum);
      var j :| 0 <= j < n && spectrum[j] == t[k];
    }
    assert Median(spectrum) == spectrum[0];
    assert Peak(spectrum) == spectrum[0];
  }
}
