/** The FM demodulator's discrete decisions: the volume clamp, the decimation
    factor, the empty-input case and the squelch gate. The phase discriminator
    and SciPy's decimating filter are not modelled: an unsquelched block is
    described by the decimation factor handed to the filter and the final
    scaling factor, not by its samples. */
module Demodulator {
  import opened Common
  import opened Radio

  /** What `demodulate` returns for one block of IQ samples. */
  datatype AudioBlock =
    | Silence(length: nat)
      // `length` zero samples (also the empty result of an empty input)
    | Discriminated(phaseSteps: nat, decimation: nat, scale: real)
      // the `phaseSteps` phase differences of the block, decimated by
      // `decimation` and multiplied by `scale`

  /** `max(0.0, min(1.0, v))`. */
  function ClampVolume(v: real): (r: real)
    ensures 0.0 <= r <= 1.0
    ensures 0.0 <= v <= 1.0 ==> r == v
    ensures v < 0.0 ==> r == 0.0
    ensures v > 1.0 ==> r == 1.0
  {
    if 1.0 < v then 1.0 else if v < 0.0 then 0.0 else v
  }

  /** Setting the volume twice to the same value is setting it once. */
  lemma ClampVolumeIdempotent(v: real)
    ensures ClampVolume(ClampVolume(v)) == ClampVolume(v)
  {
  }

  /** `int(rate / audio_rate)`: the integer decimation factor for a rate. For
      non-negative rates it is the largest factor that does not exceed the
      ratio. */
  function DecimationFor(rateHz: real, audioRate: int): (d: int)
    requires audioRate != 0
    ensures rateHz >= 0.0 && audioRate > 0 ==>
              d >= 0 && d as real <= rateHz / audioRate as real < (d + 1) as real
  {
    TruncToInt(rateHz / audioRate as real)
  }

  /** Decimating `n` samples by `d` keeps `n / d` whole output samples. */
  lemma SilenceFits(n: nat, d: int)
    requires d >= 1
    ensures 0 <= (n / d) * d <= n
  {
  }

  /** Python's truthiness of the optional `sample_rate` argument: `None` and
      `0` both fall back to the constructor's rate. */
  predicate RateGiven(rate: Option<real>) {
    rate.Some? && rate.value != 0.0
  }

  class FMDemodulator {
    var sampleRate: real
    var audioRate: int
    var volume: real
    var decimation: int

    ghost predicate Valid()
      reads this
    {
      audioRate != 0 && 0.0 <= volume <= 1.0
      && decimation == DecimationFor(sampleRate, audioRate)
    }

    /** The source divides by `audio_rate`, so it must not be zero. */
    constructor (sampleRate: real, audioRate: int)
      requires audioRate != 0
      ensures Valid()
      ensures this.sampleRate == sampleRate && this.audioRate == audioRate
      ensures volume == 1.0
      ensures decimation == DecimationFor(sampleRate, audioRate)
    {
      this.sampleRate := sampleRate;
      this.audioRate := audioRate;
      volume := 1.0;
      decimation := DecimationFor(sampleRate, audioRate);
    }

    method SetVolume(v: real)
      requires Valid()
      modifies this
      ensures Valid()
      ensures volume == ClampVolume(v)
      ensures sampleRate == old(sampleRate) && audioRate == old(audioRate) && decimation == old(decimation)
    {
      volume := ClampVolume(v);
    }

    /** The decimation factor `demodulate` uses for a call: from the passed
        rate when one is given, else the one fixed at construction. */
    function EffectiveDecimation(rate: Option<real>): int
      reads this
      requires Valid()
    {
      if RateGiven(rate) then DecimationFor(rate.value, audioRate) else decimation
    }

    /** One call of `demodulate`; `None` when it raises. A squelched block
        divides its length by the factor, so a factor below 1 raises; an
        unsquelched block goes through the decimating filter, whose design
        refuses any factor below 2. */
    function Demodulate(block: IqBlock, rate: Option<real>, squelchDb: real): (r: Option<AudioBlock>)
      reads this
      requires Valid()
      ensures block.Length() == 0 ==> r == Some(Silence(0))
      ensures block.Length() > 0 ==>
                (r.Some? <==> EffectiveDecimation(rate) >= if block.meanPowerDb < squelchDb then 1 else 2)
      ensures block.Length() > 0 && r.Some? ==> (r.value.Silence? <==> block.meanPowerDb < squelchDb)
      ensures block.Length() > 0 && r.Some? && r.value.Silence? ==>
                r.value.length == block.Length() / EffectiveDecimation(rate)
                && r.value.length * EffectiveDecimation(rate) <= block.Length()
      ensures r.Some? && r.value.Discriminated? ==>
                r.value.phaseSteps == block.Length() - 1
                && r.value.decimation == EffectiveDecimation(rate)
                && r.value.scale == volume * 0.5 && 0.0 <= r.value.scale <= 0.5
    {
      if block.Length() == 0 then Some(Silence(0))
      else if block.meanPowerDb < squelchDb then
        // the squelch path recomputes the factor from the rate it falls back to
        var currentRate := if RateGiven(rate) then rate.value else sampleRate;
        var d := DecimationFor(currentRate, audioRate);
        assert d == EffectiveDecimation(rate);
        if d < 1 then None
        else
          SilenceFits(block.Length(), d);
          Some(Silence(block.Length() / d))
      else
        // SciPy's anti-aliasing filter has its cutoff at 1/d of the Nyquist
        // frequency and must stay strictly below it: d = 1 is refused too
        var d := EffectiveDecimation(rate);
        if d < 2 then None
        else Some(Discriminated(block.Length() - 1, d, volume * 0.5))
    }
  }

  /** The squelch gate is strict: a block exactly at the threshold is never
      silenced; it reaches the discriminator, which needs a factor of at
      least 2. */
  lemma SquelchAtThresholdPasses(d: FMDemodulator, block: IqBlock, rate: Option<real>)
    requires d.Valid() && block.Length() > 0 && d.EffectiveDecimation(rate) >= 1
    ensures d.Demodulate(block, rate, block.meanPowerDb).Some? <==> d.EffectiveDecimation(rate) >= 2
    ensures d.Demodulate(block, rate, block.meanPowerDb).Some? ==>
              d.Demodulate(block, rate, block.meanPowerDb).value.Discriminated?
  {
  }

  /** In manual listening the receiver runs at 960 kHz into 48 kHz audio: the
      factor is 20, and a squelched block whose length is a multiple of 20 is
      replaced by silence exactly one twentieth as long. */
  lemma {:induction false} ManualSilenceLength(d: FMDemodulator, block: IqBlock, squelchDb: real)
    requires d.Valid() && d.audioRate == 48000
    requires block.Length() > 0 && block.Length() % 20 == 0 && block.meanPowerDb < squelchDb
    ensures d.EffectiveDecimation(Some(960000.0)) == 20
    ensures d.Demodulate(block, Some(960000.0), squelchDb) == Some(Silence(block.Length() / 20))
    ensures 20 * (block.Length() / 20) == block.Length()
  {
    assert 960000.0 / 48000 as real == 20.0;
    assert TruncToInt(20.0) == 20;
  }
}
