# MassScanner control logic in Dafny

A model of the discrete control logic of MassScanner, an RTL-SDR band scanner
with a manual FM listening mode, and proofs about it. The model has five parts:

- **`SdrDriver`** (`sdr_driver.dfy`, over the abstract receiver in
  `radio.dfy`) is the connection state machine. It has the fields
  `isConnected`, `sdr` and `ppmError`. Every device operation checks the
  connection first and touches the handle only when connected. A device fault
  becomes a failure value and never changes `isConnected`.
- **`Scanner`** (`scanner.dfy`) holds the pause/active flag, the manual/sweep
  mode and the manual frequency. It rounds the buffer size to a multiple of 20
  and runs start, stop and shutdown. It also runs the two worker loops:
  - the sweep over the enabled bands, frequency step by frequency step;
  - manual listening, block by block.
- **`Analysis`** (`analysis.dfy`) is the detection decision applied to one
  block's power spectrum. The noise floor is the median and the peak is the
  first maximum. An event is produced exactly when the peak exceeds
  floor + threshold. The peak frequency is the bin's offset from the tuned
  centre.
- **`Demodulator`** (`demodulator.dfy`) covers the discrete part of the FM
  demodulator: the volume clamp, the decimation factor, the empty-input case
  and the squelch gate with the length of the silence it returns.
- **`Logger`** (`logger.dfy`) is the `detections` table. It covers event
  validation with the defaults for missing keys, append, the newest-first
  limited read, count and clear.
- **`MainWindow`** (`main_window.dfy`) is the window controller:
  - the 12-digit frequency register, where each digit wraps around with no
    carry;
  - reading the register as a frequency;
  - the step clamp;
  - the `is_scanning` / `detection_count` bookkeeping of the start and stop
    buttons.

Hardware, audio output and the database are oracles passed as arguments:

- `fault` flags say whether a call raised;
- `StepReply` / `BandReply` / `ListenReply` carry what the radio delivered
  during a loop;
- `dbFault` says whether the database call failed.

A block of IQ samples is abstracted to its power spectrum in dB and its mean
power in dB (`Radio.IqBlock`). Each public call is one atomic step. The
worker's endless loops are observed over the finite list of replies given.

## Model

| member | source | states |
|---|---|---|
| Common.TruncToInt | src/core/demodulator.py:25 | `int()` of a float truncates toward zero: a non-negative value gives the non-negative integer just below or at it, a negative value the integer just above or at it |
| SdrDriver.GainSetting | src/core/sdr_driver.py:112-116 | a requested gain of 0 selects automatic gain; any other value is written through unchanged |
| SdrDriver.Driver.Usable | src/core/sdr_driver.py:84 | the guard of every device operation: connected and holding a device handle |
| SdrDriver.Driver.constructor | src/core/sdr_driver.py:27-38 | a new driver has no handle, is disconnected and has no PPM correction |
| SdrDriver.Driver.Connect | src/core/sdr_driver.py:40-58 | succeeds iff the device opens and, when a correction is stored, writing it succeeds; `isConnected` equals the result; the stored PPM is on the device after success; a failed open keeps the old handle |
| SdrDriver.Driver.Disconnect | src/core/sdr_driver.py:60-72 | always ends disconnected with no handle, even when `close` raises |
| SdrDriver.Driver.Tune | src/core/sdr_driver.py:74-94 | returns true iff connected with a handle and no fault; when not usable the device is untouched; a fault leaves the device and `isConnected` unchanged; success sets exactly the centre frequency |
| SdrDriver.Driver.SetGain | src/core/sdr_driver.py:96-120 | same guard and fault rules as tuning; success writes `GainSetting(gain)` and nothing else |
| SdrDriver.Driver.ReadSamples | src/core/sdr_driver.py:122-142 | a block is returned iff connected, no fault and a non-negative count; it is the captured block, of the requested length |
| SdrDriver.Driver.SetSampleRate | src/core/sdr_driver.py:144-164 | same guard and fault rules; success sets exactly the sample rate |
| SdrDriver.Driver.GetCenterFreq | src/core/sdr_driver.py:166-180 | `None` when disconnected or on a fault, otherwise the device's centre frequency |
| SdrDriver.Driver.GetSampleRate | src/core/sdr_driver.py:182-196 | `None` when disconnected or on a fault, otherwise the device's sample rate |
| SdrDriver.Driver.SetPpmCorrection | src/core/sdr_driver.py:198-221 | records the correction first in every case; returns true when disconnected; when connected, returns whether the device write succeeded |
| SdrDriver.Driver.GetPpmCorrection | src/core/sdr_driver.py:223-235 | the stored correction when disconnected or when reading the device fails, else the device's correction |
| Analysis.Sort | src/core/scanner.py:320 | the sorted copy used by the median has the same length, is ascending and is a permutation of the spectrum |
| Analysis.Median | src/core/scanner.py:320 | `np.median`: the middle element of the sorted spectrum, or the mean of the two middle ones for an even count |
| Analysis.Insert | src/core/scanner.py:320 | one more element than the input, which is the input plus `x` as a multiset |
| Analysis.InsertSorted | src/core/scanner.py:320 | inserting into an ascending sequence keeps it ascending, with the smaller of `x` and the old first element first |
| Analysis.ArgMax | src/core/scanner.py:323-324 | `np.argmax`: an index holding the maximum, with every earlier element strictly smaller (the first maximum) |
| Analysis.Peak | src/core/scanner.py:323 | `np.max`: the value at the first maximum |
| Analysis.SortBounds | src/core/scanner.py:320-323 | the smallest sorted element occurs in the spectrum and the largest is at most the peak |
| Analysis.MedianWithinRange | src/core/scanner.py:320-324 | the noise floor is at most the peak, and at least one bin lies at or below it |
| Analysis.BinFrequency | src/core/scanner.py:330-332 | the frequency of bin k: centre + (k − n div 2) · rate / n |
| Analysis.BinWithinCapturedBand | src/core/scanner.py:330-332 | every bin frequency lies in [centre − rate/2, centre + rate/2) |
| Analysis.SpectrumAxis | src/core/scanner.py:308-311 | the intended axis (the corrected half of the scanner.py:308-311 finding): one entry per bin, each labelled as a detection at that bin would be |
| Analysis.SpectrumAxisAsWritten | src/core/scanner.py:308-311 | the axis as computed, `centre + arange(-n // 2, n // 2) * (rate / n)`: n entries, entry k at centre + (k − ⌈n/2⌉) · rate / n |
| Analysis.AxisAsWrittenAgreesForEvenLength | src/core/scanner.py:308-311 | for even block lengths the computed axis equals the intended one |
| Analysis.AxisAsWrittenOffByOneForOddLength | src/core/scanner.py:308-311 | for a 5-bin block at centre 100 and rate 5, the computed axis labels the centre bin 99 while the peak rule gives 100 |
| Analysis.Frame | src/core/scanner.py:306-317 | a frame exists iff the spectrum is non-empty; its power array is the spectrum and its axis is the axis as computed, `SpectrumAxisAsWritten` |
| Analysis.FrameLabelsAgreeForEvenLength | src/core/scanner.py:308-311 | for an even number of bins, as in every sweep block, the published axis labels each bin with the frequency a detection there reports |
| Analysis.Detect | src/core/scanner.py:319-350 | an event iff the spectrum is non-empty and peak > median + threshold; relative power is peak − floor, exceeds the threshold and is non-negative; the floor is the median; the frequency is that of the first maximal bin; centre, band id, name and timestamp are copied through |
| Analysis.DetectionIsStrict | src/core/scanner.py:327-335 | the boundary of the strict comparison: a peak exactly at floor + threshold does not detect; a peak above it detects with relative power peak − floor |
| Analysis.FlatSpectrumNeverDetects | src/core/scanner.py:319-327 | a spectrum whose bins are all equal never detects for a non-negative threshold |
| Demodulator.ClampVolume | src/core/demodulator.py:34 | the result is in [0, 1]; an in-range value is kept; below 0 gives 0 and above 1 gives 1 |
| Demodulator.ClampVolumeIdempotent | src/core/demodulator.py:27-34 | clamping twice is clamping once |
| Demodulator.DecimationFor | src/core/demodulator.py:25 | for a non-negative rate the factor is the floor of rate / audio rate: a natural number d with d ≤ rate/audio < d + 1 |
| Demodulator.RateGiven | src/core/demodulator.py:68 | Python truthiness of the optional rate: `None` and 0 fall back to the constructor's rate |
| Demodulator.SilenceFits | src/core/demodulator.py:70 | decimating n samples by d ≥ 1 keeps n div d whole samples, never more than n / d |
| Demodulator.FMDemodulator.constructor | src/core/demodulator.py:12-25 | stores the rates, volume 1.0 and decimation `int(rate / audio)` |
| Demodulator.FMDemodulator.SetVolume | src/core/demodulator.py:27-34 | the volume becomes the clamped value; rates and decimation are unchanged |
| Demodulator.FMDemodulator.EffectiveDecimation | src/core/demodulator.py:82-85 | the factor of a call: from the passed rate when it is given, else the constructor's |
| Demodulator.FMDemodulator.Demodulate | src/core/demodulator.py:36-96 | empty input gives empty output; a squelched block fails iff the effective decimation is below 1 and otherwise is silence of length len div decimation; an unsquelched block fails iff the factor is below 2, since the decimating filter refuses factor 1; otherwise the discriminator output with the passed rate's factor (or the constructor's when none is given) and scale volume·0.5 in [0, 0.5] |
| Demodulator.SquelchAtThresholdPasses | src/core/demodulator.py:66-90 | a block whose power equals the squelch is never silenced: it is demodulated when the factor is at least 2 and fails otherwise |
| Demodulator.ManualSilenceLength | src/core/demodulator.py:66-72 | at 960 kHz into 48 kHz the factor is 20, and a squelched block whose length is a multiple of 20 gives silence of exactly length/20 |
| Scanner.SafeBufferSize | src/core/scanner.py:409 | the stored size is a multiple of 20, at most the request and more than request − 20 |
| Scanner.SafeBufferSizeIsGreatest | src/core/scanner.py:399-412 | no multiple of 20 between the stored size and the request is missed; rounding a safe size keeps it |
| Scanner.StepFreq | src/core/scanner.py:252-274 | the frequency i steps of size `step` above `f` |
| Scanner.FreqAt | src/core/scanner.py:252-274 | the frequency of step k of a band |
| Scanner.Walk | src/core/scanner.py:252-274 | the frequencies tuned in one band, observed for at most k steps |
| Scanner.StepsTaken | src/core/scanner.py:253 | the number of steps a band's loop takes with n replies available, at most n |
| Scanner.WalkShape | src/core/scanner.py:252-274 | step i is start + i·step and within the band; a walk shorter than its budget stopped because the next step passes the end |
| Scanner.WalkLength | src/core/scanner.py:252-274 | a loop that took m in-band steps and then ran out of budget or passed the end took exactly the walk's steps |
| Scanner.WalkAscending | src/core/scanner.py:252-274 | with a positive step the tuned frequencies strictly ascend, so none is visited twice |
| Scanner.ZeroStepStalls | src/core/scanner.py:252-274 | with a zero step inside the band the sweep stays on the start frequency for as long as it is observed |
| Scanner.AnalysisTrace | src/core/scanner.py:276-350 | one analysis: the detection event, if any, and the frame, if any, at the scan sample rate with the band's id and name |
| Scanner.StepTrace | src/core/scanner.py:253-274 | one step: the analysis of the captured block when tuning and reading succeed, nothing otherwise |
| Scanner.BandTrace | src/core/scanner.py:253-274 | the first k steps of a band, in order |
| Scanner.Publish | src/core/scanner.py:306-317 | the display queue after frames are offered: only the first lands, and only on an existing empty queue |
| Scanner.Emit | src/core/scanner.py:306-350 | the scanner state after a trace: events appended to the result queue, frames offered to the display queue |
| Scanner.BandEventsAscending | src/core/scanner.py:252-274 | with a positive step, the events of one band carry strictly ascending centre frequencies |
| Scanner.VisitTrace | src/core/scanner.py:180-184 | one band of the band loop: nothing for a disabled band, its steps otherwise |
| Scanner.SweepTrace | src/core/scanner.py:170-184 | the first i bands of the band loop, in list order |
| Scanner.EnabledIndices | src/core/scanner.py:170-184 | the positions of the enabled bands among the first i, in list order |
| Scanner.EnabledIndicesSpec | src/core/scanner.py:170-184 | the bands swept are exactly the enabled ones, each once, in list order |
| Scanner.ListenAudio | src/core/scanner.py:207-229 | what manual listening writes: for each block read, the demodulated audio unless the read failed, the demodulation raised or the result is empty |
| Scanner.ListenSilenceLength | src/core/scanner.py:207-229 | with a buffer size from `SafeBufferSize`, every silent block written while listening is exactly a twentieth of the buffer |
| Bands.Band.IsEnabled | src/core/scanner.py:180 | `band.get("enabled", False)`: a band without the key is skipped |
| Bands.Band.IdOrDefault | src/core/scanner.py:345 | the band id, or "unknown" |
| Bands.Band.NameOrDefault | src/core/scanner.py:346 | the band name, or "Unknown Band" |
| Bands.Band.DriverGain | src/core/scanner.py:241-249 | the gain handed to the driver: 0 (automatic) for "auto" or a missing entry, the value otherwise |
| Scanner.Scanner.constructor | src/core/scanner.py:37-130 | paused, sweep mode, manual frequency 144 MHz, buffer 204800, gain 0, threshold 10, squelch −80; demodulator at 1.92 MHz into 48 kHz iff audio is available |
| Scanner.Scanner.SetGain | src/core/scanner.py:358-372 | the stored gain is updated in every case; true iff the driver is usable and no fault occurs; on success only the device's gain register changes, to `GainSetting(gain)`; on a fault or with an unusable driver the device is unchanged |
| Scanner.Scanner.SetThreshold | src/core/scanner.py:374-384 | only the threshold changes |
| Scanner.Scanner.SetSquelch | src/core/scanner.py:386-397 | only the squelch changes |
| Scanner.Scanner.SetBufferSize | src/core/scanner.py:399-414 | only the buffer size changes, to `SafeBufferSize(size)` |
| Scanner.Scanner.GetCurrentGain | src/core/scanner.py:416-424 | returns the stored gain |
| Scanner.Scanner.GetCurrentThreshold | src/core/scanner.py:426-434 | returns the stored threshold |
| Scanner.Scanner.SetManualMode | src/core/scanner.py:436-451 | sets manual mode and the manual frequency, nothing else, and returns true |
| Scanner.Scanner.ExitManualMode | src/core/scanner.py:453-460 | clears manual mode only; the manual frequency is kept |
| Scanner.Scanner.IsManualMode | src/core/scanner.py:462-470 | returns the mode flag |
| Scanner.Scanner.Scanning | src/core/scanner.py:472-480 | the property as written is true exactly when paused |
| Scanner.Scanner.IsActive | src/core/scanner.py:472-480 | the documented meaning: true exactly when active |
| Scanner.ScanningReportsPausedWhenActive | src/core/scanner.py:472-480 | an active scanner reports `scanning` false |
| Scanner.Scanner.ToggleMode | src/core/scanner.py:482-492 | only the mode flag changes, to the requested mode; the manual frequency is kept |
| Scanner.Scanner.SetManualFreq | src/core/scanner.py:494-508 | only the manual frequency changes; returns true |
| Scanner.Scanner.GetManualFreq | src/core/scanner.py:510-518 | returns the manual frequency |
| Scanner.Scanner.StartScan | src/core/scanner.py:520-537 | succeeds iff paused and the driver is connected; then only the active flag is set; otherwise nothing changes |
| Scanner.Scanner.StopScan | src/core/scanner.py:539-553 | no change when paused; otherwise only the active flag is cleared |
| Scanner.Scanner.Shutdown | src/core/scanner.py:555-585 | leaves manual mode, pauses, closes an existing audio stream and disconnects a connected driver, whose device handle is closed unless closing it failed; a disconnected driver's device is untouched; nothing else changes |
| Scanner.Scanner.AnalyzeSamples | src/core/scanner.py:276-356 | appends the detection event, if any, to the result queue and offers the frame to the display queue only when it is empty; nothing else changes |
| Scanner.Scanner.PublishSpectrum | src/core/scanner.py:306-317 | the frame reaches the display queue only when there is a queue and it is empty; nothing else changes |
| Scanner.Scanner.ReportDetection | src/core/scanner.py:338-350 | the event, if any, is appended to the result queue; nothing else changes |
| Scanner.Scanner.ScanStep | src/core/scanner.py:253-274 | one step: a failed tune or read emits nothing, otherwise the block is analysed at the step's frequency; the driver stays usable as before and the radio keeps its sample rate, frequency correction and open state |
| Scanner.Scanner.WalkBand | src/core/scanner.py:253-274 | while active, the events and frames are exactly those of the first `StepsTaken` in-band steps, in order; the radio keeps its sample rate, frequency correction and open state |
| Scanner.Scanner.ScanBand | src/core/scanner.py:231-274 | the events and frames are exactly those of the steps of `Walk` while active: a failed tune or read contributes nothing but still advances one step; the radio keeps its sample rate, frequency correction and open state |
| Scanner.Scanner.ScanModeLoop | src/core/scanner.py:155-184 | a failed first sample-rate set-up changes nothing; otherwise the rate is marked initialised and, when active and not in manual mode, the enabled bands are swept in list order; when paused or in manual mode nothing is swept; a failed set-up leaves the radio untouched, a fresh set-up sweeps at 2.4 MHz and an already initialised pass keeps whatever rate the radio had; only the centre frequency and gain change during the sweep |
| Scanner.Scanner.ScanModeLoopCorrected | src/core/scanner.py:155-184 | the corrected pass: whenever connected the scan rate is set again, so after a successful set-up the radio runs at 2.4 MHz; the events, frames and bands visited are those of `ScanModeLoop` |
| Scanner.SweepAtManualRateMislabels | src/core/scanner.py:305-311 | a block captured at 960 kHz but labelled with the 2.4 MHz bin width gets a wrong frequency in every bin except the centre one |
| Scanner.Scanner.SweepBands | src/core/scanner.py:170-184 | the band loop: the sweep's trace over the list when active and not in manual mode, nothing otherwise; the radio keeps its sample rate, frequency correction and open state |
| Scanner.Scanner.SweepActive | src/core/scanner.py:170-184 | while active in sweep mode, the bands visited are exactly the enabled ones in list order and the trace is the sweep's trace over the whole list; the radio keeps its sample rate, frequency correction and open state |
| Scanner.Scanner.VisitBand | src/core/scanner.py:180-184 | a disabled band emits nothing; an enabled one is swept; the flags are unchanged; the radio keeps its sample rate, frequency correction and open state |
| Scanner.Scanner.ManualModeLoop | src/core/scanner.py:186-229 | without a stream or demodulator only manual mode is cleared; otherwise, after a successful tune and 960 kHz set-up while active in manual mode, exactly the non-empty demodulated blocks are written to a running stream; the radio is untouched on the guard and tune-failure paths, retuned to the manual frequency when only the rate set-up fails, and retuned and set to 960 kHz otherwise |
| Scanner.Scanner.Listen | src/core/scanner.py:207-229 | the listening loop writes exactly the non-empty demodulations of the successfully read blocks, in order; the radio's settings are untouched |
| Logger.Falsy | src/data/logger.py:117 | Python truthiness: `None`, the empty string and zero are false |
| Logger.Get | src/data/logger.py:105-114 | `dict.get(key, default)` |
| Logger.Extract | src/data/logger.py:105-114 | the four values `log_event` inserts, each with its default |
| Logger.ExtractDefaults | src/data/logger.py:105-114 | the stored power is `relative_power_db` if present, else `power_db`, else 0.0; a missing band name is "Unknown"; present timestamp and frequency are taken as given |
| Logger.Acceptable | src/data/logger.py:116-119 | the validation: a truthy timestamp and a non-zero frequency |
| Logger.Insertable | src/data/logger.py:130-133 | the NOT NULL columns: no value is `None` |
| Logger.MissingKeysAreRejected | src/data/logger.py:105-119 | an accepted event has a timestamp and a frequency, with a truthy timestamp and a non-zero frequency |
| Logger.Reverse | src/data/logger.py:167-171 | the rows in reverse id order |
| Logger.NewestFirst | src/data/logger.py:167-172 | `ORDER BY id DESC LIMIT limit` over rows in id order; a negative limit is no limit |
| Logger.NewestFirstSpec | src/data/logger.py:167-177 | the select returns min(limit, count) rows (all for a negative limit), the newest first, with strictly descending ids |
| Logger.Execute | src/data/logger.py:228-231 | a delete opens a transaction; `VACUUM` fails iff a transaction is open |
| Logger.Run | src/data/logger.py:228-239 | statements run in order; the first error stops the script |
| Logger.CommittedAfter | src/data/logger.py:228-239 | the table after a script: the committed one on success, the old one when an error drops the connection |
| Logger.ClearAsWrittenAlwaysFails | src/data/logger.py:219-239 | delete, vacuum, commit always fails at the vacuum |
| Logger.ClearScriptEmpties | src/data/logger.py:228-231 | delete, commit, vacuum empties the table and ends with no transaction open |
| Logger.SignalLogger.constructor | src/data/logger.py:22-87 | opens a table holding the given rows |
| Logger.SignalLogger.LogEvent | src/data/logger.py:89-146 | succeeds iff the timestamp is truthy, the frequency is non-zero, no value is `None` and the database works; success appends exactly one row with a fresh id; failure changes nothing |
| Logger.SignalLogger.GetRecentDetections | src/data/logger.py:148-181 | [] on a database error, else the newest `limit` rows newest first; never more than a non-negative limit; ids strictly descending |
| Logger.SignalLogger.GetDetectionCount | src/data/logger.py:183-208 | the number of rows, 0 on a database error |
| Logger.SignalLogger.ClearAllDetections | src/data/logger.py:210-239 | as written: always returns false and the table keeps every row, with or without a database error; ids are unchanged |
| Logger.SignalLogger.ClearAllDetectionsCorrected | src/data/logger.py:210-239 | with the commit before the vacuum: succeeds iff the database works; success leaves the table empty, failure unchanged; ids are never reused |
| Logger.LoggedRowIsNewest | src/data/logger.py:130-138 | appending a row with the next id keeps the ids ordered, grows the count by one and puts the new row first in a select |
| MainWindow.ToDigits | src/ui/main_window.py:352-357 | the inverse of reading the register: n digits, each in 0..9 |
| MainWindow.DigitsValue | src/ui/main_window.py:352-357 | the register's digits read as a decimal number, most significant first |
| MainWindow.FrequencyMHz | src/ui/main_window.py:352-357 | the register with a decimal point after the third digit, in MHz |
| MainWindow.DigitsValueBounds | src/ui/main_window.py:352-357 | an n-digit register reads as a value in [0, 10^n) |
| MainWindow.DigitsRoundTrip | src/ui/main_window.py:352-357 | writing back the value read from a register gives the same digits |
| MainWindow.ValueRoundTrip | src/ui/main_window.py:352-357 | reading back the digits of a value below 10^n gives the value |
| MainWindow.DigitsValueSplit | src/ui/main_window.py:352-357 | digits before a suffix weigh 10 to the suffix's length |
| MainWindow.RegisterReadsMHz | src/ui/main_window.py:352-357 | the register's frequency is the first three digits as whole MHz plus the other nine as the fraction |
| MainWindow.DigitsValueUpdate | src/ui/main_window.py:359-371 | writing one digit changes the value by the digit difference times the position's weight |
| MainWindow.IncrementAt | src/ui/main_window.py:359-364 | the register with digit p replaced by (d + 1) mod 10 |
| MainWindow.DecrementAt | src/ui/main_window.py:366-371 | the register with digit p replaced by (d − 1) mod 10, Python's floor remainder |
| MainWindow.IncrementValue | src/ui/main_window.py:359-364 | the digit becomes d+1, with 9 wrapping to 0; no other digit changes; the value grows by the position's weight or drops by 9 times it on the wrap |
| MainWindow.DecrementValue | src/ui/main_window.py:366-371 | the digit becomes d−1, with 0 wrapping to 9; no other digit changes; the value drops by the position's weight or grows by 9 times it on the wrap |
| MainWindow.IncrementDecrementInverse | src/ui/main_window.py:359-371 | up then down (or down then up) at one position restores the register |
| MainWindow.SteppedFrequency | src/ui/main_window.py:425-428 | the stepped frequency is never below 0.001 MHz, never below current + step, and is one of the two |
| MainWindow.StepButtons | src/ui/main_window.py:431-435 | from a frequency at or above the floor, +25 kHz is exact and −25 kHz stays at or above 0.001 MHz |
| MainWindow.Window.constructor | src/ui/main_window.py:33-76 | a disconnected driver on device 0, a scanner with a display queue switched to manual mode, not scanning, zero detections |
| MainWindow.Window.ApplyFrequencyChange | src/ui/main_window.py:373-386 | the manual frequency becomes the register's frequency in Hz; the radio is retuned to it only while scanning and connected |
| MainWindow.Window.IncrementDigit | src/ui/main_window.py:359-364 | the register becomes `IncrementAt(p)` and becomes the manual frequency; while scanning with a usable driver and no fault only the device's centre frequency changes, to the new frequency; otherwise the device is unchanged; the connection is kept |
| MainWindow.Window.DecrementDigit | src/ui/main_window.py:366-371 | the register becomes `DecrementAt(p)` and becomes the manual frequency; while scanning with a usable driver and no fault only the device's centre frequency changes, to the new frequency; otherwise the device is unchanged; the connection is kept |
| MainWindow.Window.OnStartScan | src/ui/main_window.py:501-517 | no-op while scanning; a failed connect leaves it not scanning; a refused start disconnects again; success means scanning, detection count 0, scanner active, driver usable |
| MainWindow.Window.OnStopScan | src/ui/main_window.py:519-527 | no-op when not scanning; otherwise the scanner is paused, the driver disconnected and scanning cleared |

## Left out

- FFT, `fftshift`, `log10`, the mean power and SciPy decimation are left out. A block is given as its power spectrum and its mean power in dB.
- Demodulator.FMDemodulator.Demodulate: does not give the samples or the length of unsquelched audio, which depend on SciPy's filter; such a block is always written to the stream.
- The worker thread, `threading.Event`/`Lock`, the sleeps and the endless `run` loop are left out. Each call is atomic, so a pause or a mode change cannot happen in the middle of a sweep or a listening session.
- Scanner.Scanner.ScanBand: the step is added as an exact real, so float rounding of `current_freq += step_size` is not modelled.
- Scanner.Scanner.ScanStep: states only that the radio's other settings are kept, not which centre frequency and gain the sweep leaves it at.
- Scanner.Scanner.WalkBand: states only that the radio's other settings are kept, not which centre frequency and gain the sweep leaves it at.
- Scanner.Scanner.ScanBand: states only that the radio's other settings are kept, not which centre frequency and gain the sweep leaves it at.
- Scanner.Scanner.VisitBand: states only that the radio's other settings are kept, not which centre frequency and gain the sweep leaves it at.
- Scanner.Scanner.SweepBands: states only that the radio's other settings are kept, not which centre frequency and gain the sweep leaves it at.
- Scanner.Scanner.SweepActive: states only that the radio's other settings are kept, not which centre frequency and gain the sweep leaves it at.
- Scanner.Scanner.ScanModeLoop: states only that the radio's other settings are kept, not which centre frequency and gain the sweep leaves it at.
- Scanner.Scanner.ScanModeLoopCorrected: states only that the radio's other settings are kept, not which centre frequency and gain the sweep leaves it at.
- Scanner.Scanner.ScanBand: a `gain` string other than "auto" that `float()` cannot parse makes the thread raise; that is not modelled. Numeric strings are `BandGain.Db`.
- `set_threshold` stores a value that the sweep never reads, because the sweep uses each band's own threshold. The model keeps it that way.
- The audio output stream is left out. Only what would be written is recorded (`audioOut`); stream start/stop errors are not modelled.
- `dwell_time_ms`, the spectrum update counter fields and timestamps are left out. Timestamps come in as the `now` argument.
- `print` output and the random debug print in `demodulate` are left out.
- The SQLite DDL, indexes and file handling are left out, and so is type affinity. A stored value is kept exactly as given.
- `_set_frequency_display` is left out. Its float formatting is out of scope, so the register contents after `change_freq_step` and at start-up are not modelled. The constructor takes the initial digits as an argument. With `:012.6f` only 11 digits are written, so 146.52 reads back as 1.4652 MHz; no round trip with the register is claimed.
- MainWindow.SteppedFrequency: covers only the clamp of `change_freq_step`. The display write that follows it is not modelled.
- `_on_ppm_change`, the log box trimming in `_update_log`, `poll_queue` and `_handle_detection_event` are left out, and so are all widgets and the spectrum plot.
- `set_demod_mode` and `set_spectrum_enabled` are called by the window but are not defined on the scanner, so they are not modelled.
- `main.py` is not part of this model.
- Bands.Band: `start_freq_hz`, `end_freq_hz`, `step_size_hz` and `threshold_db` are mandatory fields, so a band missing one of them, for which `_scan_band` raises `KeyError` and ends the worker thread, cannot be expressed.
- Demodulator.DecimationFor: requires a non-zero audio rate, and so does the `FMDemodulator` constructor; with an audio rate of 0 the source raises `ZeroDivisionError` at construction, which is not modelled.
- Analysis.Frame: carries the axis as the source computes it; the corrected axis `SpectrumAxis` is used only to state the finding, and for the even block lengths of the sweep the two agree.

## Findings

| source | as written | input that shows it | evidently intended | confidence | as-written member | corrected member |
|---|---|---|---|---|---|---|
| src/core/scanner.py:472-480 | `scanning` returns `not scan_paused.is_set()`, which is true when paused | after a successful `start_scan`, `scanning` is false | true when actively scanning, as its documentation says | not executed; high | Scanner.Scanner.Scanning | Scanner.Scanner.IsActive |
| src/core/scanner.py:308-311 | the spectrum axis is `arange(-n // 2, n // 2)`, which starts at −⌈n/2⌉ | n = 5, centre 100, rate 5: the centre bin is labelled 99 while the peak rule of line 331 gives 100 | the axis labels each bin as the detection rule does | not executed; low: the sweep always reads 2048 samples, where both agree | Analysis.SpectrumAxisAsWritten | Analysis.SpectrumAxis |
| src/data/logger.py:228-229 | `DELETE` makes Python's `sqlite3` open a transaction, and `VACUUM` then runs inside it | any table: SQLite refuses to vacuum within a transaction, the call returns False and the uncommitted delete is dropped | commit the delete before vacuuming, so the table is emptied | not executed; medium: depends on the default isolation level of Python 3.6 and later | Logger.SignalLogger.ClearAllDetections | Logger.SignalLogger.ClearAllDetectionsCorrected |
| src/core/scanner.py:160-162 | the scan rate is set only on the first pass (`_initialized`), while a manual session sets the radio to 960 kHz (line 201) | start scanning, enter manual mode, leave it: the next sweep reads at 960 kHz, yet lines 308 and 330 use a 2.4 MHz bin width, so a peak 100 bins above the centre of a 2048-bin block is reported about 70 kHz too far out | set the scan rate whenever sweeping resumes after manual mode | not executed; high | Scanner.SweepAtManualRateMislabels | Scanner.Scanner.ScanModeLoopCorrected |
