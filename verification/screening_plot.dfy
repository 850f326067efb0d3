/** The live plot of the screening view: the pulse and breathing traces that
    grow as metrics buffers arrive, and the two rates shown beside them. */
module ScreeningPlot {
  import opened Wrappers
  import opened Numeric

  /** One point of a trace or a rate series. */
  datatype Measurement = Measurement(time: real, value: real)

  /** The parts of a metrics buffer the view reads. */
  datatype MetricsBuffer = MetricsBuffer(
    isInitialized: bool,
    pulseTrace: seq<Measurement>,
    breathingUpperTrace: seq<Measurement>,
    pulseRate: seq<Measurement>,
    breathingRate: seq<Measurement>)

  predicate Sorted(xs: seq<Measurement>) {
    forall i, j :: 0 <= i < j < |xs| ==> xs[i].time <= xs[j].time
  }

  /** `firstIndex(where: { $0.time >= t })` */
  function FirstIndexAtOrAfter(xs: seq<Measurement>, t: real): (r: Option<nat>)
    ensures r.None? <==> forall i :: 0 <= i < |xs| ==> xs[i].time < t
    ensures r.Some? ==> r.value < |xs| && xs[r.value].time >= t
    ensures r.Some? ==> forall i :: 0 <= i < r.value ==> xs[i].time < t
  {
    if xs == [] then None
    else if xs[0].time >= t then Some(0)
    else match FirstIndexAtOrAfter(xs[1..], t)
      case Some(k) => Some(k + 1)
      case None => None
  }

  /** What `mergeAndReplace` leaves in `existing`: the new traces replace
      everything from the first existing point at or after their first time;
      the points before it stay where they are. */
  function Merged(existing: seq<Measurement>, newTraces: seq<Measurement>): (r: seq<Measurement>)
    ensures newTraces == [] ==> r == existing
    ensures newTraces != [] ==>
              exists k :: 0 <= k <= |existing| && r == existing[..k] + newTraces &&
                (forall i :: 0 <= i < k ==> existing[i].time < newTraces[0].time) &&
                (k < |existing| ==> existing[k].time >= newTraces[0].time)
  {
    if newTraces == [] then existing
    else match FirstIndexAtOrAfter(existing, newTraces[0].time)
      case Some(k) => existing[..k] + newTraces
      case None =>
        assert existing[..|existing|] == existing;
        existing + newTraces
  }

  /** `newTraces.filter { $0.time > t }` */
  function Later(xs: seq<Measurement>, t: real): (r: seq<Measurement>)
    ensures forall i :: 0 <= i < |r| ==> r[i].time > t
    ensures |r| <= |xs|
  {
    if xs == [] then []
    else if xs[0].time > t then [xs[0]] + Later(xs[1..], t)
    else Later(xs[1..], t)
  }

  /** `mergeAndReplace(existing:newTraces:)`, including its second step, which
      appends the new points later than the last point kept. */
  method MergeAndReplace(existing: seq<Measurement>, newTraces: seq<Measurement>) returns (merged: seq<Measurement>)
    ensures merged == Merged(existing, newTraces)
  {
    merged := existing;
    if newTraces == [] {
      return;
    }
    var firstNewTime := newTraces[0].time;
    var found := FirstIndexAtOrAfter(merged, firstNewTime);
    match found {
      case Some(firstExistingIndex) =>
        merged := merged[..firstExistingIndex] + newTraces;
        var lastNewTime := newTraces[|newTraces| - 1].time;
        var lastExistingTime := merged[|merged| - 1].time;
        if lastNewTime > lastExistingTime {
          merged := merged + Later(newTraces, lastExistingTime);
        }
      case None =>
        merged := merged + newTraces;
    }
  }

  /** The append step of `mergeAndReplace` never adds anything: after the
      replacement the last point kept is the last new point. */
  lemma AppendStepNeverFires(existing: seq<Measurement>, newTraces: seq<Measurement>, k: nat)
    requires newTraces != [] && k <= |existing|
    ensures var replaced := existing[..k] + newTraces;
            !(newTraces[|newTraces| - 1].time > replaced[|replaced| - 1].time)
  {
  }

  /** Length of the merge: the kept prefix plus all new points. */
  lemma MergedLength(existing: seq<Measurement>, newTraces: seq<Measurement>)
    requires newTraces != []
    ensures FirstIndexAtOrAfter(existing, newTraces[0].time).None? ==>
              |Merged(existing, newTraces)| == |existing| + |newTraces|
    ensures FirstIndexAtOrAfter(existing, newTraces[0].time).Some? ==>
              |Merged(existing, newTraces)| == FirstIndexAtOrAfter(existing, newTraces[0].time).value + |newTraces|
  {
  }

  /** Two time-ordered traces merge into a time-ordered trace: every point
      kept is earlier than the first new point. */
  lemma MergedSorted(existing: seq<Measurement>, newTraces: seq<Measurement>)
    requires Sorted(existing) && Sorted(newTraces)
    ensures Sorted(Merged(existing, newTraces))
  {
    if newTraces != [] {
      var t := newTraces[0].time;
      match FirstIndexAtOrAfter(existing, t)
      case Some(k) =>
        SpliceSorted(existing, newTraces, k);
      case None =>
        assert existing[..|existing|] == existing;
        SpliceSorted(existing, newTraces, |existing|);
    }
  }

  /** A time-ordered prefix, all of it earlier than the first new point,
      followed by time-ordered new points, is time-ordered. */
  lemma SpliceSorted(existing: seq<Measurement>, newTraces: seq<Measurement>, k: nat)
    requires Sorted(existing) && Sorted(newTraces) && newTraces != [] && k <= |existing|
    requires forall i :: 0 <= i < k ==> existing[i].time < newTraces[0].time
    ensures Sorted(existing[..k] + newTraces)
  {
    var r := existing[..k] + newTraces;
    forall i, j | 0 <= i < j < |r|
      ensures r[i].time <= r[j].time
    {
      if j < k {
        assert r[i] == existing[i] && r[j] == existing[j];
      } else if i < k {
        assert r[i] == existing[i] && r[j] == newTraces[j - k];
        assert newTraces[0].time <= newTraces[j - k].time;
      } else {
        assert r[i] == newTraces[i - k] && r[j] == newTraces[j - k];
      }
    }
  }

  /** The merge ends with exactly the new points, and starts with an
      unchanged prefix of the existing ones. */
  lemma MergedShape(existing: seq<Measurement>, newTraces: seq<Measurement>)
    requires newTraces != []
    ensures var r := Merged(existing, newTraces);
            |r| >= |newTraces| && r[|r| - |newTraces|..] == newTraces &&
            r[..|r| - |newTraces|] == existing[..|r| - |newTraces|]
  {
    var r := Merged(existing, newTraces);
    var k :| 0 <= k <= |existing| && r == existing[..k] + newTraces;
    assert |r| - |newTraces| == k;
  }

  /** `value.rounded()` of the last point of a rate series, or 0. */
  function LastRounded(rate: seq<Measurement>): (r: real)
    ensures rate == [] ==> r == 0.0
    ensures rate != [] ==> rate[|rate| - 1].value - 0.5 <= r <= rate[|rate| - 1].value + 0.5
    ensures r == r.Floor as real
  {
    if rate == [] then 0.0 else RoundedHalfAway(rate[|rate| - 1].value) as real
  }

  /** The view's state. */
  class PlotView {
    var pulseRate: real
    var breathingRate: real
    var pulseTrace: seq<Measurement>
    var breathingTrace: seq<Measurement>

    constructor ()
      ensures pulseRate == 0.0 && breathingRate == 0.0
      ensures pulseTrace == [] && breathingTrace == []
    {
      pulseRate := 0.0;
      breathingRate := 0.0;
      pulseTrace := [];
      breathingTrace := [];
    }

    /** Both traces time-ordered. */
    predicate Valid()
      reads this
    {
      Sorted(pulseTrace) && Sorted(breathingTrace)
    }

    /** `onAppear`: both traces and both rates are reset. */
    method OnAppear()
      modifies this
      ensures pulseTrace == [] && breathingTrace == []
      ensures pulseRate == 0.0 && breathingRate == 0.0
      ensures Valid()
    {
      pulseTrace := [];
      breathingTrace := [];
      pulseRate := 0.0;
      breathingRate := 0.0;
    }

    /** `updateTraces`: the pulse trace and the breathing upper trace of the
        buffer are merged into the view's traces. */
    method UpdateTraces(buffer: MetricsBuffer)
      modifies this
      ensures pulseTrace == Merged(old(pulseTrace), buffer.pulseTrace)
      ensures breathingTrace == Merged(old(breathingTrace), buffer.breathingUpperTrace)
      ensures pulseRate == old(pulseRate) && breathingRate == old(breathingRate)
      ensures old(Valid()) && Sorted(buffer.pulseTrace) && Sorted(buffer.breathingUpperTrace) ==> Valid()
    {
      if Valid() && Sorted(buffer.pulseTrace) && Sorted(buffer.breathingUpperTrace) {
        MergedSorted(pulseTrace, buffer.pulseTrace);
        MergedSorted(breathingTrace, buffer.breathingUpperTrace);
      }
      pulseTrace := MergeAndReplace(pulseTrace, buffer.pulseTrace);
      breathingTrace := MergeAndReplace(breathingTrace, buffer.breathingUpperTrace);
    }

    /** `onReceive` of a metrics buffer: ignored unless present and
        initialized; otherwise the traces are merged with the received
        buffer. The rates are read from the SDK's stored buffer, `stored`,
        which the published property does not update until after its
        subscribers have run: it still holds the previously published
        buffer, and no buffer at all the first time. */
    method OnReceive(buffer: Option<MetricsBuffer>, stored: Option<MetricsBuffer>)
      modifies this
      ensures buffer.None? || !buffer.value.isInitialized ==>
                pulseTrace == old(pulseTrace) && breathingTrace == old(breathingTrace) &&
                pulseRate == old(pulseRate) && breathingRate == old(breathingRate)
      ensures buffer.Some? && buffer.value.isInitialized ==>
                pulseTrace == Merged(old(pulseTrace), buffer.value.pulseTrace) &&
                breathingTrace == Merged(old(breathingTrace), buffer.value.breathingUpperTrace)
      ensures buffer.Some? && buffer.value.isInitialized && stored.None? ==>
                pulseRate == 0.0 && breathingRate == 0.0
      ensures buffer.Some? && buffer.value.isInitialized && stored.Some? ==>
                pulseRate == LastRounded(stored.value.pulseRate) &&
                breathingRate == LastRounded(stored.value.breathingRate)
    {
      if buffer.None? || !buffer.value.isInitialized {
        return;
      }
      UpdateTraces(buffer.value);
      pulseRate := if stored.Some? then LastRounded(stored.value.pulseRate) else 0.0;
      breathingRate := if stored.Some? then LastRounded(stored.value.breathingRate) else 0.0;
    }
  }

  /** Two buffers published one after the other, starting from none: the
      first shows zero rates and the second shows the first one's rates. */
  method PublishTwice(view: PlotView, first: MetricsBuffer, second: MetricsBuffer)
    requires first.isInitialized && second.isInitialized
    modifies view
    ensures view.pulseRate == LastRounded(first.pulseRate)
    ensures view.breathingRate == LastRounded(first.breathingRate)
  {
    view.OnReceive(Some(first), None);
    assert view.pulseRate == 0.0;
    view.OnReceive(Some(second), Some(first));
  }
}
