/** The scanning engine: a paused/active flag, a manual-listening vs.
    band-sweep mode, the manual frequency and the buffer size, plus the two
    loops the worker runs: the sweep over the enabled bands, frequency step by
    frequency step, and manual listening, block by block.

    Each public call is one atomic step: the worker thread, its endless outer
    loop and its sleeps are not modelled, so a flag another thread would clear
    mid-loop keeps its value for the whole call. What the hardware does during
    a loop is an argument: one reply per frequency step or per block read. */
module Scanner {
  import opened Common
  import opened Radio
  import opened Bands
  import opened Analysis
  import SdrDriver
  import Demodulator

  /** The factor from 960 kHz down to 48 kHz audio; buffer sizes are kept a
      multiple of it. */
  const DecimationFactor: int := 20
  const ScanSampleRateHz: real := 2400000.0
  const ManualSampleRateHz: real := 960000.0
  const ScanBlockSamples: nat := 2048
  const AudioRateHz: int := 48000
  const DemodulatorRateHz: real := 1920000.0

  /** The buffer size stored for a requested size: rounded down to a multiple
      of the decimation factor, by Python's floor remainder. */
  function SafeBufferSize(size: int): (r: int)
    ensures r % DecimationFactor == 0
    ensures r <= size && size - DecimationFactor < r
  {
    size - size % DecimationFactor
  }

  /** No other multiple of the factor lies between the stored and the
      requested size, and an already safe size is kept. */
  lemma SafeBufferSizeIsGreatest(size: int, m: int)
    requires m % DecimationFactor == 0 && m <= size
    ensures m <= SafeBufferSize(size)
    ensures SafeBufferSize(SafeBufferSize(size)) == SafeBufferSize(size)
  {
  }

  // ---------------------------------------------------------------------------
  // What the hardware supplies during a loop
  // ---------------------------------------------------------------------------

  /** One frequency step of a sweep: did tuning raise, did the read raise,
      the block the radio captured, and the clock reading for the event. */
  datatype StepReply = StepReply(tuneFault: bool, readFault: bool, captured: IqBlock, now: string)

  /** One band of a sweep: did setting the band's gain raise, then one reply
      per frequency step. */
  datatype BandReply = BandReply(gainFault: bool, steps: seq<StepReply>)

  /** One block read during manual listening. */
  datatype ListenReply = ListenReply(readFault: bool, captured: IqBlock)

  /** The state of the audio output stream. */
  datatype StreamState = NoStream | Running | Closed

  // ---------------------------------------------------------------------------
  // What a sweep produces
  // ---------------------------------------------------------------------------

  /** Detection events sent to the result queue and spectra offered to the
      display queue, in order. */
  datatype Trace = Trace(events: seq<DetectionEvent>, frames: seq<SpectrumFrame>)
  {
    function Then(next: Trace): Trace {
      Trace(events + next.events, frames + next.frames)
    }
  }

  const NoTrace := Trace([], [])

  function ToSeq<T>(o: Option<T>): seq<T> {
    if o.Some? then [o.value] else []
  }

  /** What one analysis of a captured block produces. */
  function AnalysisTrace(block: IqBlock, centerHz: real, thresholdDb: real, band: Band, now: string): Trace {
    Trace(ToSeq(Detect(block.spectrumDb, centerHz, ScanSampleRateHz, thresholdDb,
                       band.IdOrDefault(), band.NameOrDefault(), now)),
          ToSeq(Frame(block.spectrumDb, centerHz, ScanSampleRateHz)))
  }

  /** The display queue is only written when it is empty. Nothing drains it
      during one call, so of the frames offered only the first can land. */
  function Publish(hasQueue: bool, q: seq<SpectrumFrame>, frames: seq<SpectrumFrame>): seq<SpectrumFrame> {
    if hasQueue && q == [] && frames != [] then [frames[0]] else q
  }

  lemma PublishAppend(hasQueue: bool, q: seq<SpectrumFrame>, fs: seq<SpectrumFrame>, gs: seq<SpectrumFrame>)
    ensures Publish(hasQueue, Publish(hasQueue, q, fs), gs) == Publish(hasQueue, q, fs + gs)
  {
    if fs != [] {
      assert (fs + gs)[0] == fs[0];
    } else {
      assert fs + gs == gs;
    }
  }

  /** The frequency of step `k` of a band. */
  function FreqAt(band: Band, k: nat): real {
    StepFreq(band.startFreqHz, band.stepSizeHz, k)
  }

  /** One frequency step: tuning and reading both have to go through for
      the block to be analysed; otherwise the step is skipped. */
  function StepTrace(band: Band, usable: bool, k: nat, r: StepReply): Trace {
    if usable && !r.tuneFault && !r.readFault
    then AnalysisTrace(r.captured, FreqAt(band, k), band.thresholdDb, band, r.now)
    else NoTrace
  }

  /** The first `k` steps of a band. */
  function BandTrace(band: Band, usable: bool, steps: seq<StepReply>, k: nat): Trace
    requires k <= |steps|
  {
    if k == 0 then NoTrace
    else BandTrace(band, usable, steps, k - 1).Then(StepTrace(band, usable, k - 1, steps[k - 1]))
  }

  /** The frequency `i` steps of size `step` above `f`. */
  function StepFreq(f: real, step: real, i: nat): real {
    f + i as real * step
  }

  lemma StepFreqNext(f: real, step: real, i: nat)
    ensures StepFreq(f, step, i + 1) == StepFreq(f, step, i) + step
    ensures StepFreq(f + step, step, i) == StepFreq(f, step, i + 1)
  {
    assert (i + 1) as real * step == i as real * step + step;
  }

  /** The frequencies a sweep of one band tunes to, from `f` in increments
      of `step` while at most `end`, observed for at most `k` steps. */
  function Walk(f: real, step: real, end: real, k: nat): (w: seq<real>)
    ensures |w| <= k
    decreases k
  {
    if k == 0 || f > end then [] else [f] + Walk(f + step, step, end, k - 1)
  }

  /** The number of steps a sweep of `band` takes when `n` replies are
      available. */
  function StepsTaken(band: Band, n: nat): (m: nat)
    ensures m <= n
  {
    |Walk(band.startFreqHz, band.stepSizeHz, band.endFreqHz, n)|
  }

  /** Step `i` of a walk is `f + i * step`, within the band; a walk shorter
      than its budget stopped because the next step would pass `end`. */
  lemma {:induction false} WalkShape(f: real, step: real, end: real, k: nat)
    ensures forall i :: 0 <= i < |Walk(f, step, end, k)| ==>
              Walk(f, step, end, k)[i] == StepFreq(f, step, i) && Walk(f, step, end, k)[i] <= end
    ensures |Walk(f, step, end, k)| < k ==> StepFreq(f, step, |Walk(f, step, end, k)|) > end
    decreases k
  {
    if k == 0 || f > end {
      assert StepFreq(f, step, 0) == f;
    } else {
      WalkShape(f + step, step, end, k - 1);
      var w, w' := Walk(f, step, end, k), Walk(f + step, step, end, k - 1);
      assert w == [f] + w';
      forall i | 1 <= i < |w|
        ensures w[i] == StepFreq(f, step, i)
      {
        assert w[i] == w'[i - 1];
        StepFreqNext(f, step, i - 1);
      }
      assert w[0] == StepFreq(f, step, 0);
      StepFreqNext(f, step, |w'|);
    }
  }

  /** A loop that stepped `m` times, every step within the band, and stopped
      on the budget or past `end`, took exactly the walk's steps. */
  lemma {:induction false} WalkLength(f: real, step: real, end: real, k: nat, m: nat)
    requires m <= k
    requires forall i :: 0 <= i < m ==> StepFreq(f, step, i) <= end
    requires m == k || StepFreq(f, step, m) > end
    ensures |Walk(f, step, end, k)| == m
    decreases m
  {
    if m == 0 {
      assert StepFreq(f, step, 0) == f;
    } else {
      assert StepFreq(f, step, 0) == f;
      var g := f + step;
      forall i | 0 <= i < m - 1
        ensures StepFreq(g, step, i) <= end
      {
        StepFreqNext(f, step, i);
      }
      StepFreqNext(f, step, m - 1);
      WalkLength(f + step, step, end, k - 1, m - 1);
    }
  }

  /** With a positive step the sweep tunes in strictly ascending order, so
      no frequency is visited twice. */
  lemma {:induction false} WalkAscending(f: real, step: real, end: real, k: nat)
    requires step > 0.0
    ensures forall i, j :: 0 <= i < j < |Walk(f, step, end, k)| ==> Walk(f, step, end, k)[i] < Walk(f, step, end, k)[j]
  {
    WalkShape(f, step, end, k);
    var w := Walk(f, step, end, k);
    forall i, j | 0 <= i < j < |w|
      ensures w[i] < w[j]
    {
      StepFreqLess(f, step, i, j);
    }
  }

  lemma StepFreqLess(f: real, step: real, i: nat, j: nat)
    requires i < j && step > 0.0
    ensures StepFreq(f, step, i) < StepFreq(f, step, j)
  {
    var d := (j - i) as real;
    assert d * step > 0.0;
    assert j as real * step == i as real * step + d * step;
  }

  /** The source never checks the step: with a zero step inside the band the
      sweep tunes to the same frequency for as long as it is observed. */
  lemma {:induction false} ZeroStepStalls(f: real, end: real, k: nat)
    requires f <= end
    ensures Walk(f, 0.0, end, k) == seq(k, _ => f)
    decreases k
  {
    if k > 0 {
      ZeroStepStalls(f, end, k - 1);
      assert f + 0.0 == f;
    }
  }

  /** Events of one band carry ascending centre frequencies when the step is
      positive, all below the frequency of the next step. */
  lemma {:induction false} BandEventsAscending(band: Band, usable: bool, steps: seq<StepReply>, k: nat)
    requires k <= |steps| && band.stepSizeHz > 0.0
    ensures forall a :: 0 <= a < |BandTrace(band, usable, steps, k).events| ==>
              BandTrace(band, usable, steps, k).events[a].centerFreqHz < FreqAt(band, k)
    ensures forall a, b :: 0 <= a < b < |BandTrace(band, usable, steps, k).events| ==>
              BandTrace(band, usable, steps, k).events[a].centerFreqHz
              < BandTrace(band, usable, steps, k).events[b].centerFreqHz
  {
    if k > 0 {
      BandEventsAscending(band, usable, steps, k - 1);
      StepFreqNext(band.startFreqHz, band.stepSizeHz, k - 1);
      var last := StepTrace(band, usable, k - 1, steps[k - 1]).events;
      assert forall a :: 0 <= a < |last| ==> last[a].centerFreqHz == FreqAt(band, k - 1);
      AppendAscending(BandTrace(band, usable, steps, k - 1).events, last, FreqAt(band, k - 1), FreqAt(band, k));
    }
  }

  /** Appending events at frequency `f` to ascending events below `f` keeps
      them ascending, and all of them are below any `g > f`. */
  lemma AppendAscending(prev: seq<DetectionEvent>, last: seq<DetectionEvent>, f: real, g: real)
    requires f < g
    requires forall a :: 0 <= a < |prev| ==> prev[a].centerFreqHz < f
    requires forall a, b :: 0 <= a < b < |prev| ==> prev[a].centerFreqHz < prev[b].centerFreqHz
    requires |last| <= 1 && forall a :: 0 <= a < |last| ==> last[a].centerFreqHz == f
    ensures forall a :: 0 <= a < |prev + last| ==> (prev + last)[a].centerFreqHz < g
    ensures forall a, b :: 0 <= a < b < |prev + last| ==> (prev + last)[a].centerFreqHz < (prev + last)[b].centerFreqHz
  {
    var ev := prev + last;
    forall a | 0 <= a < |ev|
      ensures ev[a].centerFreqHz < g
    {
      if a >= |prev| {
        assert ev[a] == last[a - |prev|];
      }
    }
    forall a, b | 0 <= a < b < |ev|
      ensures ev[a].centerFreqHz < ev[b].centerFreqHz
    {
      if b >= |prev| {
        assert ev[b] == last[b - |prev|];
      }
    }
  }

  /** What visiting one band adds: nothing for a disabled band. */
  function VisitTrace(band: Band, usable: bool, reply: BandReply): Trace {
    if band.IsEnabled() then BandTrace(band, usable, reply.steps, StepsTaken(band, |reply.steps|))
    else NoTrace
  }

  /** The first `i` bands of a sweep. */
  function SweepTrace(bands: seq<Band>, usable: bool, replies: seq<BandReply>, i: nat): Trace
    requires i <= |bands| && |replies| == |bands|
  {
    if i == 0 then NoTrace
    else SweepTrace(bands, usable, replies, i - 1).Then(VisitTrace(bands[i - 1], usable, replies[i - 1]))
  }

  /** The positions of the enabled bands among the first `i`, in list order. */
  function EnabledIndices(bands: seq<Band>, i: nat): seq<nat>
    requires i <= |bands|
  {
    if i == 0 then []
    else EnabledIndices(bands, i - 1) + (if bands[i - 1].IsEnabled() then [i - 1] else [])
  }

  /** The sweep visits exactly the enabled bands, each once, in list order. */
  lemma {:induction false} EnabledIndicesSpec(bands: seq<Band>, i: nat)
    requires i <= |bands|
    ensures var v := EnabledIndices(bands, i);
            (forall a :: 0 <= a < |v| ==> v[a] < i && bands[v[a]].IsEnabled())
            && (forall a, b :: 0 <= a < b < |v| ==> v[a] < v[b])
            && (forall j :: 0 <= j < i && bands[j].IsEnabled() ==> j in v)
  {
    if i > 0 {
      EnabledIndicesSpec(bands, i - 1);
    }
  }

  /** Every block delivered during manual listening, in order, turned into
      what is written to the audio stream: a read that failed, a demodulation
      that raised and an empty result write nothing. */
  function ListenAudio(d: Demodulator.FMDemodulator, bufferSize: int, squelchDb: real,
                       blocks: seq<ListenReply>, k: nat): seq<Demodulator.AudioBlock>
    reads d
    requires d.Valid() && k <= |blocks|
  {
    if k == 0 then []
    else
      var r := blocks[k - 1];
      var written :=
        if r.readFault || bufferSize < 0 then []
        else
          var audio := d.Demodulate(r.captured, Some(ManualSampleRateHz), squelchDb);
          if audio.Some? && audio.value != Demodulator.Silence(0) then [audio.value] else [];
      ListenAudio(d, bufferSize, squelchDb, blocks, k - 1) + written
  }

  /** With a buffer size from `SafeBufferSize`, every silent block written
      during manual listening is exactly a twentieth of the buffer. */
  lemma {:induction false} ListenSilenceLength(d: Demodulator.FMDemodulator, bufferSize: int, squelchDb: real,
                                               blocks: seq<ListenReply>, k: nat)
    requires d.Valid() && d.audioRate == AudioRateHz && k <= |blocks|
    requires bufferSize > 0 && bufferSize % DecimationFactor == 0
    requires forall j :: 0 <= j < |blocks| ==> blocks[j].captured.Length() == bufferSize
    ensures forall a :: a in ListenAudio(d, bufferSize, squelchDb, blocks, k) && a.Silence? ==>
              a.length * DecimationFactor == bufferSize
  {
    if k > 0 {
      ListenSilenceLength(d, bufferSize, squelchDb, blocks, k - 1);
      var r := blocks[k - 1];
      if r.captured.meanPowerDb < squelchDb {
        Demodulator.ManualSilenceLength(d, r.captured, squelchDb);
      }
    }
  }

  /** Sending the first `k` steps of a band and then step `k` is sending the
      first `k + 1`. */
  lemma BandStep(s: Snapshot, hasQueue: bool, band: Band, usable: bool, steps: seq<StepReply>, k: nat)
    requires k < |steps|
    ensures Emit(Emit(s, hasQueue, BandTrace(band, usable, steps, k)), hasQueue,
                 StepTrace(band, usable, k, steps[k]))
            == Emit(s, hasQueue, BandTrace(band, usable, steps, k + 1))
  {
    EmitThen(s, hasQueue, BandTrace(band, usable, steps, k), StepTrace(band, usable, k, steps[k]));
  }

  /** Sending the first `i` bands and then band `i` is sending the first
      `i + 1`. */
  lemma SweepStep(s: Snapshot, hasQueue: bool, bands: seq<Band>, usable: bool, replies: seq<BandReply>, i: nat)
    requires i < |bands| && |replies| == |bands|
    ensures Emit(Emit(s, hasQueue, SweepTrace(bands, usable, replies, i)), hasQueue,
                 VisitTrace(bands[i], usable, replies[i]))
            == Emit(s, hasQueue, SweepTrace(bands, usable, replies, i + 1))
    ensures EnabledIndices(bands, i + 1) == EnabledIndices(bands, i) + (if bands[i].IsEnabled() then [i] else [])
  {
    EmitThen(s, hasQueue, SweepTrace(bands, usable, replies, i), VisitTrace(bands[i], usable, replies[i]));
  }

  /** What a sweep may do to the receiver: retune it and set its gain. The
      sample rate, the frequency correction and the open state are kept. */
  predicate SweepKeepsRadio(before: Settings, after: Settings) {
    after == before.(centerFreq := after.centerFreq, gain := after.gain)
  }

  /** The values of all the scanner's mutable fields. */
  datatype Snapshot = Snapshot(
    active: bool, manualMode: bool, manualFreq: real, bufferSize: int,
    currentGain: real, currentThreshold: real, squelchDb: real, initialized: bool,
    resultQueue: seq<DetectionEvent>, spectrumQueue: seq<SpectrumFrame>,
    audioStream: StreamState, audioOut: seq<Demodulator.AudioBlock>)

  /** The scanner state after `t` has been sent: events appended to the
      result queue, frames offered to the display queue. */
  function Emit(s: Snapshot, hasQueue: bool, t: Trace): Snapshot {
    s.(resultQueue := s.resultQueue + t.events,
       spectrumQueue := Publish(hasQueue, s.spectrumQueue, t.frames))
  }

  lemma EmitThen(s: Snapshot, hasQueue: bool, t: Trace, u: Trace)
    ensures Emit(Emit(s, hasQueue, t), hasQueue, u) == Emit(s, hasQueue, t.Then(u))
  {
    PublishAppend(hasQueue, s.spectrumQueue, t.frames, u.frames);
    assert s.resultQueue + t.events + u.events == s.resultQueue + (t.events + u.events);
  }

  lemma EmitNothing(s: Snapshot, hasQueue: bool)
    ensures Emit(s, hasQueue, NoTrace) == s
  {
    assert s.resultQueue + [] == s.resultQueue;
  }

  class Scanner {
    const driver: SdrDriver.Driver
    const bands: seq<Band>
    /** Whether a display queue was handed over at construction. */
    const hasSpectrumQueue: bool
    /** `None` when audio is unavailable. */
    const demodulator: Demodulator.FMDemodulator?

    /** The `scan_paused` event: set means the worker is active. */
    var active: bool
    var manualMode: bool
    var manualFreq: real
    var bufferSize: int
    var currentGain: real
    var currentThreshold: real
    var squelchDb: real
    /** Whether the sweep has already set the scan sample rate. */
    var initialized: bool
    var resultQueue: seq<DetectionEvent>
    var spectrumQueue: seq<SpectrumFrame>
    var audioStream: StreamState
    /** Everything written to the audio stream. */
    var audioOut: seq<Demodulator.AudioBlock>

    function State(): Snapshot
      reads this
    {
      Snapshot(active, manualMode, manualFreq, bufferSize, currentGain, currentThreshold,
               squelchDb, initialized, resultQueue, spectrumQueue, audioStream, audioOut)
    }

    ghost predicate Valid()
      reads this, driver, demodulator
    {
      && driver.Valid()
      && bufferSize % DecimationFactor == 0
      && (demodulator != null ==> demodulator.Valid() && demodulator.audioRate == AudioRateHz)
    }

    /** A paused scanner in sweep mode. `audioAvailable` says whether the
        audio library loaded and the output stream opened. */
    constructor (driver: SdrDriver.Driver, bands: seq<Band>, hasSpectrumQueue: bool, audioAvailable: bool)
      requires driver.Valid()
      ensures Valid()
      ensures this.driver == driver && this.bands == bands && this.hasSpectrumQueue == hasSpectrumQueue
      ensures State() == Snapshot(false, false, 144000000.0, 204800, 0.0, 10.0, -80.0, false,
                                  [], [], if audioAvailable then Running else NoStream, [])
      ensures audioAvailable <==> demodulator != null
      ensures demodulator != null ==> fresh(demodulator) && demodulator.sampleRate == DemodulatorRateHz
                                      && demodulator.volume == 1.0
    {
      this.driver := driver;
      this.bands := bands;
      this.hasSpectrumQueue := hasSpectrumQueue;
      active := false;
      manualMode := false;
      manualFreq := 144000000.0;
      bufferSize := 204800;
      currentGain := 0.0;
      currentThreshold := 10.0;
      squelchDb := -80.0;
      initialized := false;
      resultQueue := [];
      spectrumQueue := [];
      audioOut := [];
      if audioAvailable {
        demodulator := new Demodulator.FMDemodulator(DemodulatorRateHz, AudioRateHz);
        audioStream := Running;
      } else {
        demodulator := null;
        audioStream := NoStream;
      }
    }

    // -------------------------------------------------------------------------
    // Setters and getters
    // -------------------------------------------------------------------------

    method SetGain(gain: real, fault: bool) returns (ok: bool)
      requires Valid()
      modifies this, driver.sdr
      ensures Valid()
      ensures State() == old(State()).(currentGain := gain)
      ensures ok == (driver.Usable() && !fault)
      ensures driver.Usable() ==>
                driver.sdr.Current() == if ok then old(driver.sdr.Current()).(gain := SdrDriver.GainSetting(gain))
                                        else old(driver.sdr.Current())
      ensures !driver.Usable() && driver.sdr != null ==> driver.sdr.Current() == old(driver.sdr.Current())
    {
      currentGain := gain;
      ok := driver.SetGain(gain, fault);
    }

    method SetThreshold(thresholdDb: real)
      modifies this
      ensures State() == old(State()).(currentThreshold := thresholdDb)
    {
      currentThreshold := thresholdDb;
    }

    method SetSquelch(valueDb: real)
      modifies this
      ensures State() == old(State()).(squelchDb := valueDb)
    {
      squelchDb := valueDb;
    }

    method SetBufferSize(size: int)
      requires Valid()
      modifies this
      ensures Valid()
      ensures State() == old(State()).(bufferSize := SafeBufferSize(size))
    {
      bufferSize := SafeBufferSize(size);
    }

    method GetCurrentGain() returns (gain: real)
      ensures gain == currentGain
    {
      gain := currentGain;
    }

    method GetCurrentThreshold() returns (thresholdDb: real)
      ensures thresholdDb == currentThreshold
    {
      thresholdDb := currentThreshold;
    }

    /** Enters manual listening at `hz`; always reports success. */
    method SetManualMode(hz: real) returns (ok: bool)
      modifies this
      ensures ok
      ensures State() == old(State()).(manualMode := true, manualFreq := hz)
    {
      manualMode := true;
      manualFreq := hz;
      ok := true;
    }

    /** Back to sweeping; the manual frequency is kept. */
    method ExitManualMode()
      modifies this
      ensures State() == old(State()).(manualMode := false)
    {
      manualMode := false;
    }

    method IsManualMode() returns (r: bool)
      ensures r == manualMode
    {
      r := manualMode;
    }

    /** The `scanning` property as written: true exactly when PAUSED, although
        it is documented as "actively scanning (not paused)". */
    function Scanning(): (r: bool)
      reads this
      ensures r <==> !active
    {
      !active
    }

    /** What `scanning` is documented to report: whether the worker is active. */
    function IsActive(): (r: bool)
      reads this
      ensures r <==> active
    {
      active
    }

    /** Switching to manual re-enters manual mode at the current manual
        frequency; switching back only leaves manual mode. */
    method ToggleMode(isManual: bool)
      modifies this
      ensures State() == old(State()).(manualMode := isManual)
    {
      if isManual {
        var _ := SetManualMode(manualFreq);
      } else {
        ExitManualMode();
      }
    }

    /** Changes the manual frequency without changing the mode. */
    method SetManualFreq(hz: real) returns (ok: bool)
      modifies this
      ensures ok
      ensures State() == old(State()).(manualFreq := hz)
    {
      manualFreq := hz;
      ok := true;
    }

    method GetManualFreq() returns (hz: real)
      ensures hz == manualFreq
    {
      hz := manualFreq;
    }

    // -------------------------------------------------------------------------
    // Start, stop, shutdown
    // -------------------------------------------------------------------------

    /** Resumes a paused scanner whose driver is connected. */
    method StartScan() returns (ok: bool)
      modifies this
      ensures ok == (!old(active) && driver.isConnected)
      ensures ok ==> IsActive()
      ensures State() == if ok then old(State()).(active := true) else old(State())
    {
      if active {
        return false;
      }
      if !driver.isConnected {
        return false;
      }
      active := true;
      ok := true;
    }

    /** Pauses an active scanner; a paused one is left as it is. */
    method StopScan()
      modifies this
      ensures !old(active) ==> State() == old(State())
      ensures State() == old(State()).(active := false)
    {
      if !active {
        return;
      }
      active := false;
    }

    /** Leaves manual mode, pauses, closes the audio stream and disconnects a
        connected driver. */
    method Shutdown(closeFault: bool)
      requires Valid()
      modifies this, driver, driver.sdr
      ensures State() == old(State()).(manualMode := false, active := false,
                                        audioStream := if old(audioStream) == NoStream then NoStream else Closed)
      ensures driver.Valid()
      ensures old(driver.isConnected) ==> !driver.isConnected && driver.sdr == null
      ensures !old(driver.isConnected) ==> driver.sdr == old(driver.sdr) && !driver.isConnected
      ensures old(driver.isConnected) && old(driver.sdr) != null ==>
                old(driver.sdr).open == (old(driver.sdr.open) && closeFault)
      ensures !old(driver.isConnected) && driver.sdr != null ==> driver.sdr.Current() == old(driver.sdr.Current())
      ensures driver.ppmError == old(driver.ppmError)
    {
      if manualMode {
        ExitManualMode();
      }
      active := false;
      if audioStream != NoStream {
        audioStream := Closed;
      }
      if driver.isConnected {
        driver.Disconnect(closeFault);
      }
    }

    // -------------------------------------------------------------------------
    // The sweep
    // -------------------------------------------------------------------------

    /** Analyses one captured block: offers its spectrum to the display queue
        if that is empty, and puts a detection event on the result queue when
        the peak clears the noise floor by more than the threshold. */
    method AnalyzeSamples(block: IqBlock, centerHz: real, thresholdDb: real, band: Band, now: string)
      modifies this
      ensures State() == Emit(old(State()), hasSpectrumQueue, AnalysisTrace(block, centerHz, thresholdDb, band, now))
    {
      if block.Length() == 0 {
        // the bin width divides by zero: the analysis gives up
        return;
      }
      var frame := Frame(block.spectrumDb, centerHz, ScanSampleRateHz);
      PublishSpectrum(frame.value);
      var event := Detect(block.spectrumDb, centerHz, ScanSampleRateHz, thresholdDb,
                          band.IdOrDefault(), band.NameOrDefault(), now);
      ReportDetection(event);
    }

    /** Offers a spectrum to the display queue; it is dropped when the queue
        is full. */
    method PublishSpectrum(frame: SpectrumFrame)
      modifies this
      ensures State() == old(State()).(spectrumQueue := Publish(hasSpectrumQueue, old(spectrumQueue), [frame]))
    {
      if hasSpectrumQueue && spectrumQueue == [] {
        spectrumQueue := [frame];
      }
    }

    /** Puts a detection, if there is one, on the result queue. */
    method ReportDetection(event: Option<DetectionEvent>)
      modifies this
      ensures State() == old(State()).(resultQueue := old(resultQueue) + ToSeq(event))
    {
      if event.Some? {
        resultQueue := resultQueue + [event.value];
      }
    }

    /** Sweeps one band: sets its gain, then tunes, reads and analyses at
        start, start + step, ... while the frequency is within the band and
        the scanner is active. A failed tune or read still advances a step. */
    method ScanBand(band: Band, reply: BandReply)
      requires Valid()
      requires forall j :: 0 <= j < |reply.steps| ==> reply.steps[j].captured.Length() == ScanBlockSamples
      modifies this, driver.sdr
      ensures Valid()
      ensures driver.sdr != null ==> SweepKeepsRadio(old(driver.sdr.Current()), driver.sdr.Current())
      ensures State() == Emit(old(State()), hasSpectrumQueue,
                              BandTrace(band, driver.Usable(), reply.steps,
                                        if old(active) then StepsTaken(band, |reply.steps|) else 0))
    {
      var _ := driver.SetGain(band.DriverGain(), reply.gainFault);
      if !active {
        // the step loop stops before its first step
        EmitNothing(State(), hasSpectrumQueue);
        return;
      }
      WalkBand(band, reply.steps);
    }

    /** The step loop of an active scanner: from the band's start, in steps
        of its step size, while within the band; the pause flag is still
        checked before every step. */
    method WalkBand(band: Band, steps: seq<StepReply>)
      requires Valid() && active
      requires forall j :: 0 <= j < |steps| ==> steps[j].captured.Length() == ScanBlockSamples
      modifies this, driver.sdr
      ensures Valid() && driver.Usable() == old(driver.Usable())
      ensures driver.sdr != null ==> SweepKeepsRadio(old(driver.sdr.Current()), driver.sdr.Current())
      ensures State() == Emit(old(State()), hasSpectrumQueue,
                              BandTrace(band, driver.Usable(), steps, StepsTaken(band, |steps|)))
    {
      var usable := driver.Usable();
      var f := band.startFreqHz;
      var k := 0;
      EmitNothing(State(), hasSpectrumQueue);
      while f <= band.endFreqHz && active && k < |steps|
        invariant Valid() && driver.Usable() == usable && active
        invariant driver.sdr != null ==> SweepKeepsRadio(old(driver.sdr.Current()), driver.sdr.Current())
        invariant 0 <= k <= |steps|
        invariant f == FreqAt(band, k)
        invariant forall i :: 0 <= i < k ==> StepFreq(band.startFreqHz, band.stepSizeHz, i) <= band.endFreqHz
        invariant State() == Emit(old(State()), hasSpectrumQueue, BandTrace(band, usable, steps, k))
        decreases |steps| - k
      {
        BandStep(old(State()), hasSpectrumQueue, band, usable, steps, k);
        ScanStep(band, f, k, steps[k]);
        StepFreqNext(band.startFreqHz, band.stepSizeHz, k);
        f := f + band.stepSizeHz;
        k := k + 1;
      }
      WalkLength(band.startFreqHz, band.stepSizeHz, band.endFreqHz, |steps|, k);
    }

    /** One frequency step of a band: tune to `f`, read a block and analyse
        it; a failed tune or read skips the analysis. */
    method ScanStep(band: Band, f: real, k: nat, r: StepReply)
      requires Valid() && f == FreqAt(band, k)
      requires r.captured.Length() == ScanBlockSamples
      modifies this, driver.sdr
      ensures Valid() && driver.Usable() == old(driver.Usable())
      ensures driver.sdr != null ==> SweepKeepsRadio(old(driver.sdr.Current()), driver.sdr.Current())
      ensures State() == Emit(old(State()), hasSpectrumQueue, StepTrace(band, driver.Usable(), k, r))
    {
      var tuned := driver.Tune(f, r.tuneFault);
      if tuned {
        var samples := driver.ReadSamples(ScanBlockSamples, r.readFault, r.captured);
        if samples.Some? {
          AnalyzeSamples(samples.value, f, band.thresholdDb, band, r.now);
          return;
        }
      }
      EmitNothing(State(), hasSpectrumQueue);
    }

    /** One pass of the sweep over the band list. On the first pass with a
        connected driver the scan sample rate is set; if that fails the pass
        is abandoned. Then every enabled band is swept in list order, unless
        the scanner is paused or in manual mode. `visited` lists the
        positions of the bands swept. */
    method ScanModeLoop(rateFault: bool, replies: seq<BandReply>) returns (ghost visited: seq<nat>)
      requires Valid()
      requires |replies| == |bands|
      requires forall b, j :: 0 <= b < |replies| && 0 <= j < |replies[b].steps| ==>
                 replies[b].steps[j].captured.Length() == ScanBlockSamples
      modifies this, driver.sdr
      ensures Valid()
      ensures driver.sdr != null ==>
                var setUp := old(driver.isConnected) && !old(initialized);
                if setUp && rateFault then driver.sdr.Current() == old(driver.sdr.Current())
                else SweepKeepsRadio(if setUp then old(driver.sdr.Current()).(sampleRate := ScanSampleRateHz)
                                     else old(driver.sdr.Current()),
                                     driver.sdr.Current())
      ensures old(driver.isConnected) && !old(initialized) && rateFault ==>
                visited == [] && State() == old(State())
      ensures !(old(driver.isConnected) && !old(initialized) && rateFault) ==>
                visited == (if old(active) && !old(manualMode) then EnabledIndices(bands, |bands|) else [])
                && State() == Emit(old(State()).(initialized := old(initialized) || driver.isConnected),
                                   hasSpectrumQueue,
                                   if old(active) && !old(manualMode)
                                   then SweepTrace(bands, driver.Usable(), replies, |bands|) else NoTrace)
    {
      if driver.isConnected && !initialized {
        var ok := driver.SetSampleRate(ScanSampleRateHz, rateFault);
        if ok {
          initialized := true;
        } else {
          return [];
        }
      }
      visited := SweepBands(replies);
    }

    /** The band loop of `ScanModeLoop`, after the sample-rate set-up. */
    method SweepBands(replies: seq<BandReply>) returns (ghost visited: seq<nat>)
      requires Valid()
      requires |replies| == |bands|
      requires forall b, j :: 0 <= b < |replies| && 0 <= j < |replies[b].steps| ==>
                 replies[b].steps[j].captured.Length() == ScanBlockSamples
      modifies this, driver.sdr
      ensures Valid()
      ensures driver.sdr != null ==> SweepKeepsRadio(old(driver.sdr.Current()), driver.sdr.Current())
      ensures visited == if old(active) && !old(manualMode) then EnabledIndices(bands, |bands|) else []
      ensures State() == Emit(old(State()), hasSpectrumQueue,
                              if old(active) && !old(manualMode)
                              then SweepTrace(bands, driver.Usable(), replies, |bands|) else NoTrace)
    {
      if !active || manualMode {
        // the loop breaks before its first band
        EmitNothing(State(), hasSpectrumQueue);
        return [];
      }
      visited := SweepActive(replies);
    }

    /** The band loop of an active scanner in sweep mode; the flags are
        still checked before every band. What the sweep produces is stated by
        `SweepTrace`; the ghost `visited` only records which bands were swept. */
    method SweepActive(replies: seq<BandReply>) returns (ghost visited: seq<nat>)
      requires Valid() && active && !manualMode
      requires |replies| == |bands|
      requires forall b, j :: 0 <= b < |replies| && 0 <= j < |replies[b].steps| ==>
                 replies[b].steps[j].captured.Length() == ScanBlockSamples
      modifies this, driver.sdr
      ensures Valid()
      ensures driver.sdr != null ==> SweepKeepsRadio(old(driver.sdr.Current()), driver.sdr.Current())
      ensures visited == EnabledIndices(bands, |bands|)
      ensures State() == Emit(old(State()), hasSpectrumQueue, SweepTrace(bands, driver.Usable(), replies, |bands|))
    {
      EmitNothing(State(), hasSpectrumQueue);
      visited := [];
      var usable := driver.Usable();
      var i := 0;
      while i < |bands| && active && !manualMode
        invariant Valid() && driver.Usable() == usable && active && !manualMode
        invariant driver.sdr != null ==> SweepKeepsRadio(old(driver.sdr.Current()), driver.sdr.Current())
        invariant 0 <= i <= |bands|
        invariant visited == EnabledIndices(bands, i)
        invariant State() == Emit(old(State()), hasSpectrumQueue, SweepTrace(bands, usable, replies, i))
      {
        SweepStep(old(State()), hasSpectrumQueue, bands, usable, replies, i);
        visited := visited + (if bands[i].IsEnabled() then [i] else []);
        VisitBand(bands[i], replies[i]);
        i := i + 1;
      }
    }

    /** One band of the band loop of an active scanner: swept when enabled,
        skipped otherwise. */
    method VisitBand(band: Band, reply: BandReply)
      requires Valid() && active
      requires forall j :: 0 <= j < |reply.steps| ==> reply.steps[j].captured.Length() == ScanBlockSamples
      modifies this, driver.sdr
      ensures Valid() && driver.Usable() == old(driver.Usable())
      ensures active == old(active) && manualMode == old(manualMode)
      ensures driver.sdr != null ==> SweepKeepsRadio(old(driver.sdr.Current()), driver.sdr.Current())
      ensures State() == Emit(old(State()), hasSpectrumQueue, VisitTrace(band, driver.Usable(), reply))
    {
      if !band.IsEnabled() {
        EmitNothing(State(), hasSpectrumQueue);
        return;
      }
      ScanBand(band, reply);
    }

    // -------------------------------------------------------------------------
    // Manual listening
    // -------------------------------------------------------------------------

    /** The scan pass as evidently intended: whenever the driver is connected the
        scan rate is set again before sweeping, so a sweep after a manual session
        (which leaves the radio at 960 kHz) runs at the rate the analysis assumes. */
    method ScanModeLoopCorrected(rateFault: bool, replies: seq<BandReply>) returns (ghost visited: seq<nat>)
      requires Valid()
      requires |replies| == |bands|
      requires forall b, j :: 0 <= b < |replies| && 0 <= j < |replies[b].steps| ==>
                 replies[b].steps[j].captured.Length() == ScanBlockSamples
      modifies this, driver.sdr
      ensures Valid()
      ensures old(driver.isConnected) && !rateFault ==>
                driver.sdr.Current().sampleRate == ScanSampleRateHz
      ensures driver.sdr != null ==>
                if old(driver.isConnected) && rateFault then driver.sdr.Current() == old(driver.sdr.Current())
                else SweepKeepsRadio(if old(driver.isConnected)
                                     then old(driver.sdr.Current()).(sampleRate := ScanSampleRateHz)
                                     else old(driver.sdr.Current()),
                                     driver.sdr.Current())
      ensures old(driver.isConnected) && rateFault ==> visited == [] && State() == old(State())
      ensures !(old(driver.isConnected) && rateFault) ==>
                visited == (if old(active) && !old(manualMode) then EnabledIndices(bands, |bands|) else [])
                && State() == Emit(old(State()).(initialized := old(initialized) || driver.isConnected),
                                   hasSpectrumQueue,
                                   if old(active) && !old(manualMode)
                                   then SweepTrace(bands, driver.Usable(), replies, |bands|) else NoTrace)
    {
      if driver.isConnected {
        var ok := driver.SetSampleRate(ScanSampleRateHz, rateFault);
        if ok {
          initialized := true;
        } else {
          return [];
        }
      }
      visited := SweepBands(replies);
    }

    /** Manual listening: without an audio stream or a demodulator manual
        mode is dropped. Otherwise tune to the manual frequency and switch the
        receiver to 960 kHz (giving up on either failure), then, while active
        and in manual mode, read a buffer, demodulate it with the squelch and
        write any non-empty audio. A stream closed by `Shutdown` still passes
        the guard, but every write to it raises and is swallowed. `blocks`
        are the blocks observed. */
    method ManualModeLoop(tuneFault: bool, rateFault: bool, blocks: seq<ListenReply>)
      requires Valid()
      requires bufferSize >= 0 ==> forall j :: 0 <= j < |blocks| ==> blocks[j].captured.Length() == bufferSize
      modifies this, driver.sdr
      ensures Valid()
      ensures driver.sdr != null ==>
                driver.sdr.Current() ==
                  if audioStream == NoStream || demodulator == null || !driver.Usable() || tuneFault
                  then old(driver.sdr.Current())
                  else if rateFault then old(driver.sdr.Current()).(centerFreq := manualFreq)
                  else old(driver.sdr.Current()).(centerFreq := manualFreq, sampleRate := ManualSampleRateHz)
      ensures audioStream == NoStream || demodulator == null ==>
                State() == old(State()).(manualMode := false)
      ensures audioStream != NoStream && demodulator != null ==>
                var listening := audioStream == Running && driver.Usable() && !tuneFault && !rateFault
                                 && old(active) && old(manualMode);
                State() == old(State()).(audioOut := old(audioOut) +
                  if listening then ListenAudio(demodulator, bufferSize, squelchDb, blocks, |blocks|) else [])
    {
      if audioStream == NoStream || demodulator == null {
        manualMode := false;
        return;
      }
      var tuned := driver.Tune(manualFreq, tuneFault);
      if !tuned {
        return;
      }
      var rateSet := driver.SetSampleRate(ManualSampleRateHz, rateFault);
      if !rateSet {
        return;
      }
      Listen(blocks);
    }

    /** The listening loop of `ManualModeLoop`, once the receiver is tuned
        and at 960 kHz. */
    method Listen(blocks: seq<ListenReply>)
      requires Valid() && driver.Usable() && demodulator != null
      requires bufferSize >= 0 ==> forall j :: 0 <= j < |blocks| ==> blocks[j].captured.Length() == bufferSize
      modifies this
      ensures Valid() && driver.Usable()
      ensures driver.sdr.Current() == old(driver.sdr.Current())
      ensures State() == old(State()).(audioOut := old(audioOut) +
                if active && manualMode && audioStream == Running
                then ListenAudio(demodulator, bufferSize, squelchDb, blocks, |blocks|) else [])
    {
      var k := 0;
      while active && manualMode && k < |blocks|
        invariant Valid() && driver.Usable()
        invariant active == old(active) && manualMode == old(manualMode)
        invariant 0 <= k <= |blocks|
        invariant !(active && manualMode) ==> k == 0
        invariant State() == old(State()).(audioOut := old(audioOut) +
                    if audioStream == Running then ListenAudio(demodulator, bufferSize, squelchDb, blocks, k) else [])
        decreases |blocks| - k
      {
        var samples := driver.ReadSamples(bufferSize, blocks[k].readFault, blocks[k].captured);
        if samples.Some? {
          var audio := demodulator.Demodulate(samples.value, Some(ManualSampleRateHz), squelchDb);
          // a demodulation that raises is swallowed and the loop goes on
          if audio.Some? && audio.value != Demodulator.Silence(0) && audioStream == Running {
            audioOut := audioOut + [audio.value];
          }
        }
        k := k + 1;
      }
    }
  }

  /** The `scanning` property contradicts its documentation: right after a
      successful start it reports false. */
  lemma ScanningReportsPausedWhenActive(s: Scanner)
    requires s.active
    ensures !s.Scanning() && s.IsActive()
  {
  }

  /** A sweep that runs at the manual rate but is analysed at the scan rate
      labels every bin except the centre one with a wrong frequency: the bin
      width is taken as 2.4 MHz / n where it is 960 kHz / n. */
  lemma SweepAtManualRateMislabels(centerHz: real, n: nat)
    requires n > 0
    ensures forall k :: 0 <= k < n && k != (n + 1) / 2 ==>
              SpectrumAxisAsWritten(centerHz, ScanSampleRateHz, n)[k]
              != SpectrumAxisAsWritten(centerHz, ManualSampleRateHz, n)[k]
  {
    var labelled, actual := SpectrumAxisAsWritten(centerHz, ScanSampleRateHz, n),
                            SpectrumAxisAsWritten(centerHz, ManualSampleRateHz, n);
    var wide, narrow := ScanSampleRateHz / n as real, ManualSampleRateHz / n as real;
    assert wide - narrow == 1440000.0 / n as real;
    forall k | 0 <= k < n && k != (n + 1) / 2
      ensures labelled[k] != actual[k]
    {
      var offset := (k - (n + 1) / 2) as real;
      assert labelled[k] - actual[k] == offset * (wide - narrow);
    }
  }
}
