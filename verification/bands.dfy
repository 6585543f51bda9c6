/** One entry of the band list the sweep walks through (one object of
    `bands.json`). Keys the source reads with a default are optional here. */
module Bands {
  import opened Common

  /** The band's `gain` entry: the text "auto" in any letter case, or a value in
      dB. A missing entry means "auto". */
  datatype BandGain = Auto | Db(db: real)

  datatype Band = Band(
    id: Option<string>,
    name: Option<string>,
    enabled: Option<bool>,
    startFreqHz: real,
    endFreqHz: real,
    stepSizeHz: real,
    gain: BandGain,
    thresholdDb: real)
  {
    /** `band.get("enabled", False)`: a band without the key is skipped. */
    predicate IsEnabled() {
      enabled == Some(true)
    }

    /** `band.get("id", "unknown")`, as copied into a detection event. */
    function IdOrDefault(): string
    {
      if id.Some? then id.value else "unknown"
    }

    /** `band.get("name", "Unknown Band")`, as copied into a detection event. */
    function NameOrDefault(): string
    {
      if name.Some? then name.value else "Unknown Band"
    }

    /** The value handed to the driver's gain setter: 0 requests automatic gain. */
    function DriverGain(): real
    {
      if gain.Auto? then 0.0 else gain.db
    }
  }
}
