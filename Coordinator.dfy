/**
 * The coordinator that links a calibration sweep to the spectrometer: while a
 * sweep runs, every spectrum is reduced to one tracked intensity, and the
 * moment of the best intensity (or the middle of a saturated stretch) is
 * turned into the axis target. Elapsed stopwatch time is an explicit `now`
 * in ms; the spectra delivered while the calibration runs are an explicit
 * sequence, handled in order before the target is read.
 */
module Coordinator {
  import opened CSharp
  import opened Wrappers
  import opened PlatformModel
  import opened Platform3D
  import opened Calibration
  import opened Spectrometer

  /** At or above this the tracked intensity counts as saturated. */
  const SaturationThreshold: real := 65000.0

  /** The coordinator's per-sample state. */
  datatype Tracker = Tracker(scanning: bool, maxIntensity: real, maxIntensityTime: int, saturated: bool, saturationStart: int)

  /** What one spectrum contributes: its tracked intensity and the stopwatch time at which it arrives. */
  datatype Observation = Observation(intensity: real, now: nat)

  /** The intensity tracked for a spectrum: at the pixel nearest the strongest in-window wavelength. */
  function TrackedIntensity(d: SpectralData, targetWl: real, tol: real): real
    requires d.Aligned()
  {
    IntensityAt(d, PeakWavelength(d, targetWl, tol))
  }

  /** The tracker when a calibration starts; the saturation start time is kept. */
  function Reset(t: Tracker): (u: Tracker)
    ensures u.scanning && !u.saturated && u.maxIntensity == -1.0 && u.maxIntensityTime == 0
    ensures u.saturationStart == t.saturationStart
  {
    Tracker(true, -1.0, 0, false, t.saturationStart)
  }

  /**
   * One sample. Outside a scan nothing changes. A saturated sample starts a
   * saturated stretch if none is open and moves the best time to the middle of
   * the stretch; any other sample closes the stretch and raises the maximum
   * only when strictly higher.
   */
  function Observe(t: Tracker, o: Observation): (u: Tracker)
    ensures !t.scanning ==> u == t
    ensures u.scanning == t.scanning
    ensures t.scanning ==> (u.saturated <==> o.intensity >= SaturationThreshold)
    ensures u.maxIntensity >= t.maxIntensity
    ensures u.maxIntensity > t.maxIntensity ==>
              u.maxIntensity == o.intensity < SaturationThreshold && u.maxIntensityTime == o.now
    ensures t.scanning && o.intensity >= SaturationThreshold ==>
              && u.saturationStart == (if t.saturated then t.saturationStart else o.now)
              && u.maxIntensityTime == Div(u.saturationStart + o.now, 2)
              && u.maxIntensity == t.maxIntensity
    ensures u.saturationStart != t.saturationStart ==> u.saturationStart == o.now
  {
    if !t.scanning then t
    else if o.intensity >= SaturationThreshold then
      var start := if t.saturated then t.saturationStart else o.now;
      t.(saturated := true, saturationStart := start, maxIntensityTime := Div(start + o.now, 2))
    else
      var u := t.(saturated := false);
      if o.intensity > t.maxIntensity then u.(maxIntensity := o.intensity, maxIntensityTime := o.now) else u
  }

  /** The target a scanning sample sets: the same fraction of the travel as the best time is of the elapsed time. */
  function Retarget(targets: map<Axis, int>, axis: Axis, t: Tracker, o: Observation): (m: map<Axis, int>)
    ensures m.Keys == targets.Keys + (if t.scanning && o.now > 0 then {axis} else {})
    ensures !(t.scanning && o.now > 0) ==> m == targets
    ensures forall a :: a in targets && a != axis ==> m[a] == targets[a]
    ensures t.scanning && o.now > 0 ==> m[axis] == TargetFor(axis, o.now, Observe(t, o).maxIntensityTime)
    ensures t.scanning && 0 <= Observe(t, o).maxIntensityTime <= o.now && o.now > 0 ==> 0 <= m[axis] <= GetMaxStep(axis)
  {
    if t.scanning && o.now > 0 then
      var best := Observe(t, o).maxIntensityTime;
      assert 0 <= best <= o.now ==> 0 <= TargetFor(axis, o.now, best) <= GetMaxStep(axis) by {
        if 0 <= best <= o.now {
          TargetWithinTravel(axis, o.now, best);
        }
      }
      targets[axis := TargetFor(axis, o.now, best)]
    else targets
  }

  /** The tracker and the targets after a scan has seen the observations, in order. */
  datatype Scan = Scan(tracker: Tracker, targets: map<Axis, int>)

  function Feed(t: Tracker, targets: map<Axis, int>, axis: Axis, obs: seq<Observation>): (s: Scan)
    ensures targets.Keys <= s.targets.Keys
    decreases |obs|
  {
    if obs == [] then Scan(t, targets)
    else Feed(Observe(t, obs[0]), Retarget(targets, axis, t, obs[0]), axis, obs[1..])
  }

  lemma FeedStep(t: Tracker, targets: map<Axis, int>, axis: Axis, obs: seq<Observation>, k: nat)
    requires k < |obs|
    ensures Feed(t, targets, axis, obs[k..]) == Feed(Observe(t, obs[k]), Retarget(targets, axis, t, obs[k]), axis, obs[k + 1..])
  {
    assert obs[k..][1..] == obs[k + 1..];
  }

  /** One delivered spectrum with its arrival time. */
  datatype Sample = Sample(data: SpectralData, now: nat)

  predicate AllAligned(samples: seq<Sample>) {
    forall k :: 0 <= k < |samples| ==> samples[k].data.Aligned()
  }

  function Observations(samples: seq<Sample>, targetWl: real, tol: real): (obs: seq<Observation>)
    requires AllAligned(samples)
    ensures |obs| == |samples|
    ensures forall k :: 0 <= k < |samples| ==>
              obs[k] == Observation(TrackedIntensity(samples[k].data, targetWl, tol), samples[k].now)
  {
    seq(|samples|, k requires 0 <= k < |samples| && AllAligned(samples) =>
                     Observation(TrackedIntensity(samples[k].data, targetWl, tol), samples[k].now))
  }

  /** Samples arriving outside a scan change neither the tracker nor any target. */
  lemma {:induction false} IdleIgnoresSamples(t: Tracker, targets: map<Axis, int>, axis: Axis, obs: seq<Observation>)
    requires !t.scanning
    ensures Feed(t, targets, axis, obs) == Scan(t, targets)
    decreases |obs|
  {
    if obs != [] {
      IdleIgnoresSamples(t, targets, axis, obs[1..]);
    }
  }

  /** Within an open saturated stretch started at `start`, the best time is the truncated middle of `start` and the latest sample. */
  lemma {:induction false} SaturatedStretch(t: Tracker, targets: map<Axis, int>, axis: Axis, obs: seq<Observation>)
    requires t.scanning && t.saturated && obs != []
    requires forall k :: 0 <= k < |obs| ==> obs[k].intensity >= SaturationThreshold
    ensures var u := Feed(t, targets, axis, obs).tracker;
            && u.saturated && u.saturationStart == t.saturationStart && u.maxIntensity == t.maxIntensity
            && u.maxIntensityTime == Div(t.saturationStart + obs[|obs| - 1].now, 2)
    decreases |obs|
  {
    if |obs| > 1 {
      SaturatedStretch(Observe(t, obs[0]), Retarget(targets, axis, t, obs[0]), axis, obs[1..]);
    }
  }

  /**
   * A saturated stretch entered from an unsaturated state starts at its first
   * sample, and the best time is the truncated middle of its first and last
   * samples; the maximum stays as it was.
   */
  lemma SaturatedStretchMidpoint(t: Tracker, targets: map<Axis, int>, axis: Axis, obs: seq<Observation>)
    requires t.scanning && !t.saturated && obs != []
    requires forall k :: 0 <= k < |obs| ==> obs[k].intensity >= SaturationThreshold
    ensures var u := Feed(t, targets, axis, obs).tracker;
            && u.saturationStart == obs[0].now && u.maxIntensity == t.maxIntensity
            && u.maxIntensityTime == Div(obs[0].now + obs[|obs| - 1].now, 2)
  {
    if |obs| > 1 {
      SaturatedStretch(Observe(t, obs[0]), Retarget(targets, axis, t, obs[0]), axis, obs[1..]);
    }
  }

  /** Saturated from 1000 ms to 3000 ms: the best time is 2000 ms. */
  lemma MidpointExample(t: Tracker)
    ensures var obs := [Observation(70000.0, 1000), Observation(66000.0, 3000)];
            Feed(Reset(t), map[], X, obs).tracker.maxIntensityTime == 2000
  {
    var obs := [Observation(70000.0, 1000), Observation(66000.0, 3000)];
    SaturatedStretchMidpoint(Reset(t), map[], X, obs);
  }

  /**
   * The stored maximum is the largest unsaturated intensity seen, or the
   * starting maximum when none is larger: saturated samples never raise it.
   */
  lemma {:induction false} TrackedMaximum(t: Tracker, targets: map<Axis, int>, axis: Axis, obs: seq<Observation>)
    requires t.scanning
    ensures var m := Feed(t, targets, axis, obs).tracker.maxIntensity;
            && m >= t.maxIntensity
            && (forall k :: 0 <= k < |obs| && obs[k].intensity < SaturationThreshold ==> obs[k].intensity <= m)
            && (m == t.maxIntensity || exists k :: 0 <= k < |obs| && obs[k].intensity == m < SaturationThreshold)
    decreases |obs|
  {
    if obs != [] {
      var u := Observe(t, obs[0]);
      TrackedMaximum(u, Retarget(targets, axis, t, obs[0]), axis, obs[1..]);
      var m := Feed(t, targets, axis, obs).tracker.maxIntensity;
      assert forall k :: 1 <= k < |obs| ==> obs[k] == obs[1..][k - 1];
      if m != u.maxIntensity {
        var k :| 0 <= k < |obs[1..]| && obs[1..][k].intensity == m < SaturationThreshold;
        assert obs[k + 1].intensity == m;
      }
    }
  }

  /** A spectrum peaking at exactly 65000 counts is saturated for the coordinator but raises no alert, which needs more than 65000. */
  lemma ThresholdsDiffer()
    ensures var d := SpectralData([500.0], [65000.0], "");
            && d.Aligned() && !AboveAlertLimit(d)
            && TrackedIntensity(d, 500.0, 1.0) >= SaturationThreshold
  {
    var d := SpectralData([500.0], [65000.0], "");
    assert FirstAbove(d.wavelengths, 501.0) == 1;
    assert WindowPeak(d, 500.0, 1.0, 1) == Best(65000.0, 500.0);
    assert Nearest(d.wavelengths, 500.0) == 0;
  }

  class PlatformCoordinator {
    const calibration: CalibrationLogic
    var isScanning: bool
    var maxIntensityFound: real
    var maxIntensityTimeMs: int
    var targetWl: real
    var tolerance: real
    var currentAxis: Axis
    var isCurrentlySaturated: bool
    var saturationStartTime: int
    /** Whether the sweep stopwatch runs. */
    var stopwatchRunning: bool
    /** Whether the spectrometer is in continuous measurement. */
    var measuring: bool

    function Tracked(): Tracker
      reads this
    {
      Tracker(isScanning, maxIntensityFound, maxIntensityTimeMs, isCurrentlySaturated, saturationStartTime)
    }

    constructor (calibration: CalibrationLogic)
      ensures this.calibration == calibration
      ensures Tracked() == Tracker(false, -1.0, 0, false, -1)
      ensures !stopwatchRunning && !measuring
    {
      this.calibration := calibration;
      isScanning := false;
      maxIntensityFound := -1.0;
      maxIntensityTimeMs := 0;
      targetWl := 0.0;
      tolerance := 0.0;
      currentAxis := X;
      isCurrentlySaturated := false;
      saturationStartTime := -1;
      stopwatchRunning := false;
      measuring := false;
    }

    /**
     * Calibrates `axis` while tracking the peak at `targetWl` within
     * `tolerance`. `samples` are the spectra delivered during the run; the
     * remaining inputs are those of `CalibrateAxis`. Scanning, the stopwatch
     * and the measurement end on every exit.
     */
    method StartAxisCalibrationAsync(axis: Axis, targetWl: real, tolerance: real, samples: seq<Sample>,
                                     sweepReport: Option<BoundarySignal>, returnReport: Option<BoundarySignal>,
                                     cancel: CancelPoint)
      returns (outcome: Outcome)
      requires calibration.Valid() && AllAligned(samples)
      modifies this, calibration`targetPositions, calibration`pauses
      modifies calibration.platform, calibration.platform.position, calibration.platform.status
      ensures calibration.Valid()
      ensures !isScanning && !stopwatchRunning && !measuring
      ensures currentAxis == axis && this.targetWl == targetWl && this.tolerance == tolerance
      ensures var fed := Feed(Reset(old(Tracked())), old(calibration.targetPositions), axis,
                              Observations(samples, targetWl, tolerance));
              && Tracked() == fed.tracker.(scanning := false)
              && calibration.targetPositions == fed.targets
              && var c := Calibrate(old(calibration.platform.State()), old(calibration.platform.status.isMoving),
                                    fed.targets[axis], axis, sweepReport, returnReport, cancel);
                 && outcome == c.outcome
                 && calibration.platform.State() == c.state
                 && calibration.platform.log == old(calibration.platform.log) + c.events
                 && calibration.pauses == old(calibration.pauses) + (if c.settled then [SettleMs] else [])
    {
      ghost var s0, m0 := calibration.platform.State(), calibration.platform.status.isMoving;
      ghost var fed := Feed(Reset(Tracked()), calibration.targetPositions, axis, Observations(samples, targetWl, tolerance));
      currentAxis := axis;
      this.targetWl := targetWl;
      this.tolerance := tolerance;
      maxIntensityFound := -1.0;
      maxIntensityTimeMs := 0;
      isCurrentlySaturated := false;
      isScanning := true;
      measuring := true;
      stopwatchRunning := true;
      assert Tracked() == Reset(old(Tracked()));
      ReceiveSamples(samples);
      assert calibration.platform.State() == s0;
      outcome := calibration.CalibrateAxis(axis, sweepReport, returnReport, cancel);
      isScanning := false;
      stopwatchRunning := false;
      measuring := false;
    }

    /** The spectra delivered while the calibration runs, handled in arrival order. */
    method ReceiveSamples(samples: seq<Sample>)
      requires AllAligned(samples) && calibration.Valid()
      modifies this`maxIntensityFound, this`maxIntensityTimeMs, this`isCurrentlySaturated, this`saturationStartTime
      modifies calibration`targetPositions
      ensures var fed := Feed(old(Tracked()), old(calibration.targetPositions), currentAxis,
                              Observations(samples, targetWl, tolerance));
              Tracked() == fed.tracker && calibration.targetPositions == fed.targets
      ensures calibration.Valid()
    {
      ghost var obs := Observations(samples, targetWl, tolerance);
      for k := 0 to |samples|
        invariant Feed(old(Tracked()), old(calibration.targetPositions), currentAxis, obs)
               == Feed(Tracked(), calibration.targetPositions, currentAxis, obs[k..])
        invariant calibration.Valid()
      {
        ghost var t, m := Tracked(), calibration.targetPositions;
        FeedStep(t, m, currentAxis, obs, k);
        assert obs[k] == Observation(TrackedIntensity(samples[k].data, targetWl, tolerance), samples[k].now);
        OnSpectralDataReceived(samples[k].data, samples[k].now);
        assert Tracked() == Observe(t, obs[k]) && calibration.targetPositions == Retarget(m, currentAxis, t, obs[k]);
      }
      assert obs[|samples|..] == [];
    }

    /** One spectrum arriving at stopwatch time `now`. */
    method OnSpectralDataReceived(data: SpectralData, now: nat)
      requires data.Aligned()
      modifies this`maxIntensityFound, this`maxIntensityTimeMs, this`isCurrentlySaturated, this`saturationStartTime
      modifies calibration`targetPositions
      ensures var o := Observation(TrackedIntensity(data, targetWl, tolerance), now);
              && Tracked() == Observe(old(Tracked()), o)
              && calibration.targetPositions == Retarget(old(calibration.targetPositions), currentAxis, old(Tracked()), o)
    {
      if !isScanning {
        return;
      }
      var actualPeakWl := GetActualPeakWavelength(data, targetWl, tolerance);
      var currentIntensity := GetIntensityAtWavelength(data, actualPeakWl);
      var isSaturated := currentIntensity >= SaturationThreshold;
      if isSaturated {
        if !isCurrentlySaturated {
          saturationStartTime := now;
          isCurrentlySaturated := true;
        }
        maxIntensityTimeMs := Div(saturationStartTime + now, 2);
      } else {
        isCurrentlySaturated := false;
        if currentIntensity > maxIntensityFound {
          maxIntensityFound := currentIntensity;
          maxIntensityTimeMs := now;
        }
      }
      calibration.SetTargetByIntensityTime(currentAxis, now, maxIntensityTimeMs);
    }
  }
}
