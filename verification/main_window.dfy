/** The controller side of the main window: the 12-digit frequency register
    the user edits one digit at a time, the +/-25 kHz step with its lower
    clamp, and the `is_scanning` / `detection_count` bookkeeping of the start
    and stop buttons. Widgets, plotting and the log box are not modelled. */
module MainWindow {
  import opened Radio
  import opened Bands
  import SdrDriver
  import Scanner

  /** The register shows `ddd.ddd.ddd.ddd`: 3 digits of whole MHz and 9 of
      fraction. */
  const DigitCount: nat := 12

  function Pow10(k: nat): (r: nat)
    ensures r >= 1
  {
    if k == 0 then 1 else 10 * Pow10(k - 1)
  }

  predicate IsDigits(ds: seq<int>) {
    forall i :: 0 <= i < |ds| ==> 0 <= ds[i] <= 9
  }

  /** The register read as a decimal number, most significant digit first. */
  function DigitsValue(ds: seq<int>): int {
    if ds == [] then 0 else DigitsValue(ds[..|ds| - 1]) * 10 + ds[|ds| - 1]
  }

  /** `_get_frequency_from_display`: the digits with a decimal point after
      the third, in MHz. */
  function FrequencyMHz(ds: seq<int>): real {
    DigitsValue(ds) as real / 1000000000.0
  }

  /** The last `n` decimal digits of `v`; the inverse of `DigitsValue`. */
  function ToDigits(v: int, n: nat): (ds: seq<int>)
    ensures |ds| == n && IsDigits(ds)
    decreases n
  {
    if n == 0 then [] else ToDigits(v / 10, n - 1) + [v % 10]
  }

  lemma {:induction false} DigitsValueBounds(ds: seq<int>)
    requires IsDigits(ds)
    ensures 0 <= DigitsValue(ds) < Pow10(|ds|)
  {
    if ds != [] {
      var n := |ds|;
      DigitsValueBounds(ds[..n - 1]);
      var v := DigitsValue(ds[..n - 1]);
      assert v <= Pow10(n - 1) - 1;
      assert v * 10 <= (Pow10(n - 1) - 1) * 10;
    }
  }

  /** Reading and writing the register are inverse to each other. */
  lemma {:induction false} DigitsRoundTrip(ds: seq<int>)
    requires IsDigits(ds)
    ensures ToDigits(DigitsValue(ds), |ds|) == ds
  {
    if ds != [] {
      var n := |ds|;
      var init := ds[..n - 1];
      DigitsRoundTrip(init);
      var v := DigitsValue(ds);
      assert v / 10 == DigitsValue(init) && v % 10 == ds[n - 1];
      assert ds == init + [ds[n - 1]];
    }
  }

  lemma {:induction false} ValueRoundTrip(v: int, n: nat)
    requires 0 <= v < Pow10(n)
    ensures DigitsValue(ToDigits(v, n)) == v
  {
    if n > 0 {
      assert v / 10 < Pow10(n - 1);
      ValueRoundTrip(v / 10, n - 1);
      var ds := ToDigits(v, n);
      assert ds[..n - 1] == ToDigits(v / 10, n - 1);
    }
  }

  /** Digits before `b` weigh `10^|b|`. */
  lemma {:induction false} DigitsValueSplit(a: seq<int>, b: seq<int>)
    ensures DigitsValue(a + b) == DigitsValue(a) * Pow10(|b|) + DigitsValue(b)
  {
    if b == [] {
      assert a + b == a;
    } else {
      var n := |b|;
      DigitsValueSplit(a, b[..n - 1]);
      assert (a + b)[..|a + b| - 1] == a + b[..n - 1];
      var x := DigitsValue(a);
      assert (x * Pow10(n - 1)) * 10 == x * Pow10(n);
    }
  }

  /** The first three digits are the whole MHz and the other nine the
      fraction. */
  lemma RegisterReadsMHz(ds: seq<int>)
    requires |ds| == DigitCount
    ensures FrequencyMHz(ds) == DigitsValue(ds[..3]) as real + DigitsValue(ds[3..]) as real / 1000000000.0
  {
    assert ds == ds[..3] + ds[3..];
    DigitsValueSplit(ds[..3], ds[3..]);
    assert Pow10(9) == 1000000000;
  }

  /** Writing `d` at position `p` changes the value by the digit difference
      times the weight of the position. */
  lemma {:induction false} DigitsValueUpdate(ds: seq<int>, p: nat, d: int)
    requires p < |ds|
    ensures DigitsValue(ds[p := d]) == DigitsValue(ds) + (d - ds[p]) * Pow10(|ds| - 1 - p)
  {
    var n := |ds|;
    var es := ds[p := d];
    if p == n - 1 {
      assert es[..n - 1] == ds[..n - 1];
    } else {
      assert es[..n - 1] == ds[..n - 1][p := d];
      DigitsValueUpdate(ds[..n - 1], p, d);
      var x := d - ds[p];
      assert (x * Pow10(n - 2 - p)) * 10 == x * Pow10(n - 1 - p);
    }
  }

  /** `_increment_digit` on the digit values: `(d + 1) % 10` at `p`. */
  function IncrementAt(ds: seq<int>, p: nat): seq<int>
    requires p < |ds|
  {
    ds[p := (ds[p] + 1) % 10]
  }

  /** `_decrement_digit`: `(d - 1) % 10`, Python's floor remainder. */
  function DecrementAt(ds: seq<int>, p: nat): seq<int>
    requires p < |ds|
  {
    ds[p := (ds[p] - 1) % 10]
  }

  /** Incrementing adds the weight of the position, except that 9 wraps to 0
      without a carry; no other digit changes. */
  lemma IncrementValue(ds: seq<int>, p: nat)
    requires IsDigits(ds) && p < |ds|
    ensures IsDigits(IncrementAt(ds, p)) && |IncrementAt(ds, p)| == |ds|
    ensures forall i :: 0 <= i < |ds| && i != p ==> IncrementAt(ds, p)[i] == ds[i]
    ensures IncrementAt(ds, p)[p] == if ds[p] == 9 then 0 else ds[p] + 1
    ensures DigitsValue(IncrementAt(ds, p))
            == DigitsValue(ds) + (if ds[p] == 9 then -9 else 1) * Pow10(|ds| - 1 - p)
  {
    DigitsValueUpdate(ds, p, (ds[p] + 1) % 10);
  }

  /** Decrementing subtracts the weight of the position, except that 0 wraps
      to 9 without a borrow; no other digit changes. */
  lemma DecrementValue(ds: seq<int>, p: nat)
    requires IsDigits(ds) && p < |ds|
    ensures IsDigits(DecrementAt(ds, p)) && |DecrementAt(ds, p)| == |ds|
    ensures forall i :: 0 <= i < |ds| && i != p ==> DecrementAt(ds, p)[i] == ds[i]
    ensures DecrementAt(ds, p)[p] == if ds[p] == 0 then 9 else ds[p] - 1
    ensures DigitsValue(DecrementAt(ds, p))
            == DigitsValue(ds) + (if ds[p] == 0 then 9 else -1) * Pow10(|ds| - 1 - p)
  {
    DigitsValueUpdate(ds, p, (ds[p] - 1) % 10);
  }

  /** The up and down arrows of one position undo each other. */
  lemma IncrementDecrementInverse(ds: seq<int>, p: nat)
    requires IsDigits(ds) && p < |ds|
    ensures DecrementAt(IncrementAt(ds, p), p) == ds
    ensures IncrementAt(DecrementAt(ds, p), p) == ds
  {
  }

  /** `max(0.001, current + step)`: the stepped frequency in MHz. */
  function SteppedFrequency(currentMHz: real, stepMHz: real): (r: real)
    ensures r >= 0.001 && r >= currentMHz + stepMHz
    ensures r == 0.001 || r == currentMHz + stepMHz
  {
    if 0.001 >= currentMHz + stepMHz then 0.001 else currentMHz + stepMHz
  }

  /** The step of the -25k and +25k buttons, in MHz. */
  const StepMHz: real := 0.025

  /** A step up from a frequency above the floor is exact, and a step down
      lands on the floor or above. */
  lemma StepButtons(currentMHz: real)
    requires currentMHz >= 0.001
    ensures SteppedFrequency(currentMHz, StepMHz) == currentMHz + StepMHz
    ensures SteppedFrequency(currentMHz, -StepMHz) >= 0.001
  {
  }

  class Window {
    const driver: SdrDriver.Driver
    const scanner: Scanner.Scanner
    /** The twelve digit labels, each showing one digit. */
    const freqDigits: array<int>
    var isScanning: bool
    var detectionCount: int

    ghost predicate Valid()
      reads this, freqDigits, driver, scanner, scanner.demodulator
    {
      && freqDigits.Length == DigitCount
      && IsDigits(freqDigits[..])
      && scanner.driver == driver
      && scanner.Valid()
    }

    /** Builds the driver (device 0) and the scanner with a display queue,
        then switches to manual radio. The digits the display starts with
        are given: their formatting is not modelled. */
    constructor (bands: seq<Band>, audioAvailable: bool, initialDigits: seq<int>)
      requires |initialDigits| == DigitCount && IsDigits(initialDigits)
      ensures Valid()
      ensures freqDigits[..] == initialDigits
      ensures !isScanning && detectionCount == 0
      ensures scanner.bands == bands && scanner.hasSpectrumQueue
      ensures scanner.manualMode && !scanner.active && scanner.manualFreq == 144000000.0
      ensures !driver.isConnected && driver.deviceIndex == 0
    {
      var d := new SdrDriver.Driver(0);
      var s := new Scanner.Scanner(d, bands, true, audioAvailable);
      s.ToggleMode(true);
      driver := d;
      scanner := s;
      freqDigits := new int[DigitCount](i requires 0 <= i < DigitCount => initialDigits[i]);
      isScanning := false;
      detectionCount := 0;
      new;
      assert freqDigits[..] == initialDigits;
    }

    /** `_apply_frequency_change`: the register's frequency becomes the
        manual frequency, and the radio is retuned at once while scanning. */
    method ApplyFrequencyChange(tuneFault: bool)
      requires Valid()
      modifies scanner, driver.sdr
      ensures Valid()
      ensures scanner.State() == old(scanner.State()).(manualFreq := FrequencyMHz(freqDigits[..]) * 1000000.0)
      ensures driver.isConnected == old(driver.isConnected) && driver.sdr == old(driver.sdr)
      ensures isScanning && driver.Usable() && !tuneFault ==>
                driver.sdr.Current() == old(driver.sdr.Current()).(centerFreq := FrequencyMHz(freqDigits[..]) * 1000000.0)
      ensures !(isScanning && driver.Usable() && !tuneFault) && driver.sdr != null ==>
                driver.sdr.Current() == old(driver.sdr.Current())
    {
      var hz := FrequencyMHz(freqDigits[..]) * 1000000.0;
      var _ := scanner.SetManualFreq(hz);
      if isScanning && driver.isConnected {
        var _ := driver.Tune(hz, tuneFault);
      }
    }

    /** The up arrow of position `p`. */
    method IncrementDigit(p: nat, tuneFault: bool)
      requires Valid() && p < DigitCount
      modifies freqDigits, scanner, driver.sdr
      ensures Valid()
      ensures freqDigits[..] == IncrementAt(old(freqDigits[..]), p)
      ensures scanner.State() == old(scanner.State()).(manualFreq := FrequencyMHz(freqDigits[..]) * 1000000.0)
      ensures driver.isConnected == old(driver.isConnected) && driver.sdr == old(driver.sdr)
      ensures isScanning && driver.Usable() && !tuneFault ==>
                driver.sdr.Current() == old(driver.sdr.Current()).(centerFreq := FrequencyMHz(freqDigits[..]) * 1000000.0)
      ensures !(isScanning && driver.Usable() && !tuneFault) && driver.sdr != null ==>
                driver.sdr.Current() == old(driver.sdr.Current())
    {
      IncrementValue(freqDigits[..], p);
      freqDigits[p] := (freqDigits[p] + 1) % 10;
      ApplyFrequencyChange(tuneFault);
    }

    /** The down arrow of position `p`. */
    method DecrementDigit(p: nat, tuneFault: bool)
      requires Valid() && p < DigitCount
      modifies freqDigits, scanner, driver.sdr
      ensures Valid()
      ensures freqDigits[..] == DecrementAt(old(freqDigits[..]), p)
      ensures scanner.State() == old(scanner.State()).(manualFreq := FrequencyMHz(freqDigits[..]) * 1000000.0)
      ensures driver.isConnected == old(driver.isConnected) && driver.sdr == old(driver.sdr)
      ensures isScanning && driver.Usable() && !tuneFault ==>
                driver.sdr.Current() == old(driver.sdr.Current()).(centerFreq := FrequencyMHz(freqDigits[..]) * 1000000.0)
      ensures !(isScanning && driver.Usable() && !tuneFault) && driver.sdr != null ==>
                driver.sdr.Current() == old(driver.sdr.Current())
    {
      DecrementValue(freqDigits[..], p);
      freqDigits[p] := (freqDigits[p] - 1) % 10;
      ApplyFrequencyChange(tuneFault);
    }

    /** The start button: connect, then resume the scanner; when the scanner
        refuses, the driver is disconnected again. */
    method OnStartScan(openFault: bool, ppmFault: bool, closeFault: bool)
      requires Valid()
      modifies this, driver, driver.sdr, scanner
      ensures Valid()
      ensures old(isScanning) ==>
                isScanning && detectionCount == old(detectionCount)
                && scanner.State() == old(scanner.State())
                && driver.isConnected == old(driver.isConnected) && driver.sdr == old(driver.sdr)
      ensures !old(isScanning) ==>
                var connected := !openFault && (driver.ppmError == 0 || !ppmFault);
                && isScanning == (connected && !old(scanner.active))
                && (isScanning ==> detectionCount == 0 && scanner.IsActive() && driver.Usable())
                && (!isScanning ==> detectionCount == old(detectionCount))
                && (connected && !isScanning ==> !driver.isConnected && driver.sdr == null)
                && (!connected ==> !driver.isConnected)
                && scanner.State() == old(scanner.State()).(active := isScanning || old(scanner.active))
      ensures driver.ppmError == old(driver.ppmError)
    {
      if isScanning {
        return;
      }
      var connected := driver.Connect(openFault, ppmFault);
      if !connected {
        return;
      }
      var started := scanner.StartScan();
      if !started {
        driver.Disconnect(closeFault);
        return;
      }
      isScanning := true;
      detectionCount := 0;
    }

    /** The stop button: pause the scanner and disconnect. */
    method OnStopScan(closeFault: bool)
      requires Valid()
      modifies this, driver, driver.sdr, scanner
      ensures Valid()
      ensures !old(isScanning) ==>
                !isScanning && scanner.State() == old(scanner.State())
                && driver.isConnected == old(driver.isConnected) && driver.sdr == old(driver.sdr)
      ensures old(isScanning) ==>
                !isScanning && !scanner.IsActive() && !driver.isConnected && driver.sdr == null
                && scanner.State() == old(scanner.State()).(active := false)
      ensures detectionCount == old(detectionCount) && driver.ppmError == old(driver.ppmError)
    {
      if !isScanning {
        return;
      }
      scanner.StopScan();
      driver.Disconnect(closeFault);
      isScanning := false;
    }
  }
}
