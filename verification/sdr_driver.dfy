/** The driver wrapped around one RTL-SDR handle: a connection state machine
    over `isConnected`, the handle `sdr` and the stored PPM correction.

    Every device operation first checks the connection and returns a failure
    value without touching the handle when disconnected; otherwise it performs
    one write or read on the handle, and a device fault becomes a failure value.
    A fault never changes `isConnected`: only `Connect` and `Disconnect` do. */
module SdrDriver {
  import opened Common
  import opened Radio

  /** The value written to the gain register for a requested gain: 0 selects
      automatic gain control, any other value is written through unchanged. */
  function GainSetting(gain: real): (g: Gain)
    ensures g.AutoGain? <==> gain == 0.0
    ensures g.FixedDb? ==> g.db == gain
  {
    if gain == 0.0 then AutoGain else FixedDb(gain)
  }

  class Driver {
    const deviceIndex: int
    var sdr: Device?
    var isConnected: bool
    var ppmError: int

    /** Being connected implies holding a handle (the converse does not hold:
        a failed `Connect` can leave a handle behind). */
    ghost predicate Valid()
      reads this
    {
      isConnected ==> sdr != null
    }

    /** Both guards of the source, `not is_connected or sdr is None`. */
    predicate Usable()
      reads this
    {
      isConnected && sdr != null
    }

    constructor (deviceIndex: int)
      ensures Valid()
      ensures this.deviceIndex == deviceIndex
      ensures sdr == null && !isConnected && ppmError == 0
    {
      this.deviceIndex := deviceIndex;
      sdr := null;
      isConnected := false;
      ppmError := 0;
    }

    /** Opens a new handle (`openFault`: the device could not be opened) and,
        only when a correction is stored, pushes it to the handle
        (`ppmFault`: that write raised). */
    method Connect(openFault: bool, ppmFault: bool) returns (ok: bool)
      requires Valid()
      modifies this
      ensures Valid()
      ensures ok == (!openFault && (ppmError == 0 || !ppmFault))
      ensures isConnected == ok
      ensures ppmError == old(ppmError)
      ensures openFault ==> sdr == old(sdr)
      ensures !openFault ==> sdr != null && fresh(sdr) && sdr.index == deviceIndex && sdr.open
      ensures ok ==> sdr.freqCorrection == ppmError
    {
      if openFault {
        isConnected := false;
        return false;
      }
      sdr := new Device.Open(deviceIndex);
      if ppmError != 0 {
        var written := sdr.SetFreqCorrection(ppmError, ppmFault);
        if !written {
          isConnected := false;
          return false;
        }
      }
      isConnected := true;
      ok := true;
    }

    /** Closes the handle if there is one. Whether or not `close` raises, the
        driver ends disconnected and without a handle. */
    method Disconnect(closeFault: bool)
      modifies this, sdr
      ensures Valid()
      ensures !isConnected && sdr == null
      ensures ppmError == old(ppmError)
      ensures old(sdr) != null ==> old(sdr).open == (old(sdr.open) && closeFault)
    {
      if sdr != null {
        var closed := sdr.Close(closeFault);
      }
      sdr := null;
      isConnected := false;
    }

    method Tune(hz: real, fault: bool) returns (ok: bool)
      requires Valid()
      modifies sdr
      ensures ok == (Usable() && !fault)
      ensures isConnected == old(isConnected) && sdr == old(sdr)
      ensures !Usable() && sdr != null ==> unchanged(sdr)
      ensures Usable() ==> sdr.Current() == if ok then old(sdr.Current()).(centerFreq := hz) else old(sdr.Current())
    {
      if !isConnected || sdr == null {
        return false;
      }
      ok := sdr.SetCenterFreq(hz, fault);
    }

    method SetGain(gain: real, fault: bool) returns (ok: bool)
      requires Valid()
      modifies sdr
      ensures ok == (Usable() && !fault)
      ensures isConnected == old(isConnected) && sdr == old(sdr)
      ensures !Usable() && sdr != null ==> unchanged(sdr)
      ensures Usable() ==> sdr.Current() == if ok then old(sdr.Current()).(gain := GainSetting(gain)) else old(sdr.Current())
    {
      if !isConnected || sdr == null {
        return false;
      }
      ok := sdr.SetGain(GainSetting(gain), fault);
    }

    /** Reads `n` samples; `captured` is the block the radio delivers. */
    method ReadSamples(n: int, fault: bool, captured: IqBlock) returns (r: Option<IqBlock>)
      requires n >= 0 ==> captured.Length() == n
      ensures r.Some? <==> Usable() && !fault && n >= 0
      ensures r.Some? ==> r.value == captured && r.value.Length() == n
    {
      if !isConnected || sdr == null {
        return None;
      }
      r := sdr.ReadSamples(n, fault, captured);
    }

    method SetSampleRate(hz: real, fault: bool) returns (ok: bool)
      requires Valid()
      modifies sdr
      ensures ok == (Usable() && !fault)
      ensures isConnected == old(isConnected) && sdr == old(sdr)
      ensures !Usable() && sdr != null ==> unchanged(sdr)
      ensures Usable() ==> sdr.Current() == if ok then old(sdr.Current()).(sampleRate := hz) else old(sdr.Current())
    {
      if !isConnected || sdr == null {
        return false;
      }
      ok := sdr.SetSampleRate(hz, fault);
    }

    method GetCenterFreq(fault: bool) returns (r: Option<real>)
      ensures r.Some? <==> Usable() && !fault
      ensures r.Some? ==> r.value == sdr.centerFreq
    {
      if !isConnected || sdr == null {
        return None;
      }
      r := sdr.GetCenterFreq(fault);
    }

    method GetSampleRate(fault: bool) returns (r: Option<real>)
      ensures r.Some? <==> Usable() && !fault
      ensures r.Some? ==> r.value == sdr.sampleRate
    {
      if !isConnected || sdr == null {
        return None;
      }
      r := sdr.GetSampleRate(fault);
    }

    /** Records the correction first; when disconnected it is kept for the
        next `Connect` and the call succeeds. */
    method SetPpmCorrection(ppm: int, fault: bool) returns (ok: bool)
      requires Valid()
      modifies this, sdr
      ensures Valid()
      ensures ppmError == ppm
      ensures isConnected == old(isConnected) && sdr == old(sdr)
      ensures ok == (!Usable() || !fault)
      ensures !Usable() && sdr != null ==> unchanged(sdr)
      ensures Usable() ==> sdr.Current() == if ok then old(sdr.Current()).(freqCorrection := ppm) else old(sdr.Current())
    {
      ppmError := ppm;
      if !isConnected || sdr == null {
        return true;
      }
      ok := sdr.SetFreqCorrection(ppm, fault);
    }

    /** The device's correction when it can be read, the stored one otherwise. */
    method GetPpmCorrection(fault: bool) returns (ppm: int)
      ensures !Usable() || fault ==> ppm == ppmError
      ensures Usable() && !fault ==> ppm == sdr.freqCorrection
    {
      if isConnected && sdr != null {
        var read := sdr.GetFreqCorrection(fault);
        if read.Some? {
          return read.value;
        }
        return ppmError;
      }
      return ppmError;
    }
  }
}
