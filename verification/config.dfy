/** The SDK's configuration object: the spot-measurement duration, kept within
    20 to 120 seconds by its property observer, and two display switches. */
module Config {
  const MinSpotDuration: real := 20.0
  const MaxSpotDuration: real := 120.0

  /** What the `spotDuration` observer leaves in the field after an
      assignment. */
  function Clamp(d: real): (r: real)
    ensures MinSpotDuration <= r <= MaxSpotDuration
    ensures d < MinSpotDuration ==> r == MinSpotDuration
    ensures d > MaxSpotDuration ==> r == MaxSpotDuration
    ensures MinSpotDuration <= d <= MaxSpotDuration ==> r == d
  {
    if d < MinSpotDuration then MinSpotDuration
    else if d > MaxSpotDuration then MaxSpotDuration
    else d
  }

  /** Clamping a clamped value changes nothing: a second assignment of the
      stored value leaves it where it is. */
  lemma ClampIdempotent(d: real)
    ensures Clamp(Clamp(d)) == Clamp(d)
  {
  }

  /** A longer requested duration never gives a shorter stored one. */
  lemma ClampMonotone(a: real, b: real)
    requires a <= b
    ensures Clamp(a) <= Clamp(b)
  {
  }

  class SmartSpectraConfig {
    var spotDuration: real
    var showFps: bool
    var saveJson: bool

    /** The initializer stores its arguments as given: the observer does not
        run during initialization, so an initial duration outside the range
        is kept. The defaults of the source are 30.0, false and false. */
    constructor (spotDuration: real, showFps: bool, saveJson: bool)
      ensures this.spotDuration == spotDuration
      ensures this.showFps == showFps && this.saveJson == saveJson
    {
      this.spotDuration := spotDuration;
      this.showFps := showFps;
      this.saveJson := saveJson;
    }

    /** The configuration made with the initializer's default arguments. */
    constructor Default()
      ensures spotDuration == 30.0 && !showFps && !saveJson
    {
      spotDuration := 30.0;
      showFps := false;
      saveJson := false;
    }

    /** An assignment to `spotDuration` followed by its observer: a value
        below 20 is replaced by 20, a value above 120 by 120. */
    method SetSpotDuration(value: real)
      modifies this
      ensures spotDuration == Clamp(value)
      ensures MinSpotDuration <= spotDuration <= MaxSpotDuration
      ensures showFps == old(showFps) && saveJson == old(saveJson)
    {
      spotDuration := value;
      if spotDuration < MinSpotDuration {
        spotDuration := MinSpotDuration;
      }
      if spotDuration > MaxSpotDuration {
        spotDuration := MaxSpotDuration;
      }
    }
  }
}
