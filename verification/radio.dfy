/** The RTL-SDR receiver handle (pyrtlsdr's `RtlSdr`), seen from outside.
    The hardware is not modelled: each operation takes an oracle argument
    `fault` that says whether the device raised an exception this time, and a
    read takes the block the radio captured. */
module Radio {
  import opened Common

  /** The gain register: automatic gain control or a fixed gain in dB. */
  datatype Gain = AutoGain | FixedDb(db: real)

  /** A block of IQ samples, reduced to what the rest of the system observes
      of it: its FFT-shifted power spectrum in dB (one bin per sample, so the
      spectrum's length is the block's length) and its mean power in dB. The
      FFT and the logarithms that produce these numbers are not modelled. */
  datatype IqBlock = IqBlock(spectrumDb: seq<real>, meanPowerDb: real)
  {
    function Length(): nat { |spectrumDb| }
  }

  /** The registers of an open device, as one value. */
  datatype Settings = Settings(centerFreq: real, sampleRate: real, gain: Gain,
                               freqCorrection: int, open: bool)

  /** An opened receiver. Writes to its properties may fail; a failed write
      leaves the register as it was. */
  class Device {
    const index: int
    var centerFreq: real
    var sampleRate: real
    var gain: Gain
    var freqCorrection: int
    var open: bool

    function Current(): Settings
      reads this
    {
      Settings(centerFreq, sampleRate, gain, freqCorrection, open)
    }

    /** Opening a handle: a fresh handle has no frequency correction. */
    constructor Open(index: int)
      ensures this.index == index && open && freqCorrection == 0
    {
      this.index := index;
      freqCorrection := 0;
      open := true;
    }

    method SetCenterFreq(hz: real, fault: bool) returns (ok: bool)
      modifies this
      ensures ok == !fault
      ensures Current() == if ok then old(Current()).(centerFreq := hz) else old(Current())
    {
      ok := !fault;
      if ok { centerFreq := hz; }
    }

    method SetSampleRate(hz: real, fault: bool) returns (ok: bool)
      modifies this
      ensures ok == !fault
      ensures Current() == if ok then old(Current()).(sampleRate := hz) else old(Current())
    {
      ok := !fault;
      if ok { sampleRate := hz; }
    }

    method SetGain(g: Gain, fault: bool) returns (ok: bool)
      modifies this
      ensures ok == !fault
      ensures Current() == if ok then old(Current()).(gain := g) else old(Current())
    {
      ok := !fault;
      if ok { gain := g; }
    }

    method SetFreqCorrection(ppm: int, fault: bool) returns (ok: bool)
      modifies this
      ensures ok == !fault
      ensures Current() == if ok then old(Current()).(freqCorrection := ppm) else old(Current())
    {
      ok := !fault;
      if ok { freqCorrection := ppm; }
    }

    /** Reading `n` samples delivers the block the radio captured; a negative
        count makes the library raise. */
    method ReadSamples(n: int, fault: bool, captured: IqBlock) returns (r: Option<IqBlock>)
      requires n >= 0 ==> captured.Length() == n
      ensures r.Some? <==> !fault && n >= 0
      ensures r.Some? ==> r.value == captured && r.value.Length() == n
    {
      if fault || n < 0 {
        r := None;
      } else {
        r := Some(captured);
      }
    }

    /** Reading a register back; the read itself may raise. */
    method GetCenterFreq(fault: bool) returns (r: Option<real>)
      ensures r == if fault then None else Some(centerFreq)
    {
      r := if fault then None else Some(centerFreq);
    }

    method GetSampleRate(fault: bool) returns (r: Option<real>)
      ensures r == if fault then None else Some(sampleRate)
    {
      r := if fault then None else Some(sampleRate);
    }

    method GetFreqCorrection(fault: bool) returns (r: Option<int>)
      ensures r == if fault then None else Some(freqCorrection)
    {
      r := if fault then None else Some(freqCorrection);
    }

    method Close(fault: bool) returns (ok: bool)
      modifies this
      ensures ok == !fault
      ensures Current() == if ok then old(Current()).(open := false) else old(Current())
    {
      ok := !fault;
      if ok { open := false; }
    }
  }
}
