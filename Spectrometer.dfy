/**
 * Peak finding on one spectrum: the overall maximum, the strongest pixel
 * inside a wavelength window around a target, the pixel nearest a given
 * wavelength, and the saturation alert and per-device cache kept as samples
 * arrive. Wavelengths and intensities are exact reals; the searches only
 * compare them and take one absolute difference.
 */
module Spectrometer {
  import opened Wrappers

  /** One acquisition: wavelengths (nm) and intensities (counts) index by index, and the serial of the device that took it. */
  datatype SpectralData = SpectralData(wavelengths: seq<real>, intensities: seq<real>, serial: string)
  {
    /** Every wavelength has its intensity: the searches read both arrays with one index. */
    predicate Aligned() {
      |wavelengths| == |intensities|
    }
  }

  /** The 16-bit ADC ceiling above which the alert fires. */
  const AlertLimit: real := 65000.0

  function Dist(a: real, b: real): (d: real)
    ensures d >= 0.0 && (d == a - b || d == b - a)
  {
    if a >= b then a - b else b - a
  }

  predicate Ascending(w: seq<real>) {
    forall j, k :: 0 <= j < k < |w| ==> w[j] <= w[k]
  }

  // ----- FindPeak -----

  /** `Max()` over a non-empty sequence. */
  function Max(s: seq<real>): (m: real)
    requires s != []
    ensures m in s
    ensures forall j :: 0 <= j < |s| ==> s[j] <= m
  {
    if |s| == 1 then s[0]
    else
      var rest := Max(s[1..]);
      if s[0] >= rest then s[0] else rest
  }

  /** `Array.IndexOf`: the first index holding `v`, or -1. */
  function IndexOf(s: seq<real>, v: real): (k: int)
    ensures -1 <= k < |s|
    ensures k == -1 <==> v !in s
    ensures 0 <= k ==> s[k] == v && forall j :: 0 <= j < k ==> s[j] != v
  {
    if s == [] then -1
    else if s[0] == v then 0
    else
      var k := IndexOf(s[1..], v);
      if k == -1 then -1 else k + 1
  }

  datatype Peak = Peak(wavelength: real, intensity: real)

  /** The largest intensity and the wavelength at the first index holding it; (0, 0) for an empty spectrum. */
  function FindPeak(d: SpectralData): (p: Peak)
    requires d.Aligned()
    ensures d.intensities == [] ==> p == Peak(0.0, 0.0)
    ensures d.intensities != [] ==>
              && (forall j :: 0 <= j < |d.intensities| ==> d.intensities[j] <= p.intensity)
              && exists k :: 0 <= k < |d.intensities| && d.intensities[k] == p.intensity && d.wavelengths[k] == p.wavelength
                             && forall j :: 0 <= j < k ==> d.intensities[j] < p.intensity
  {
    if d.intensities == [] then Peak(0.0, 0.0)
    else
      var m := Max(d.intensities);
      var k := IndexOf(d.intensities, m);
      Peak(d.wavelengths[k], m)
  }

  // ----- GetActualPeakWavelength -----

  predicate InWindow(w: real, target: real, tol: real) {
    Dist(w, target) <= tol
  }

  /** The first index whose wavelength lies above `bound`, or the length when there is none. */
  function FirstAbove(w: seq<real>, bound: real): (k: nat)
    ensures k <= |w|
    ensures forall j :: 0 <= j < k ==> w[j] <= bound
    ensures k < |w| ==> w[k] > bound
  {
    if w == [] then 0
    else if w[0] > bound then 0
    else 1 + FirstAbove(w[1..], bound)
  }

  /** The running best of the window search: the intensity to beat and the wavelength that reached it. */
  datatype Best = Best(intensity: real, wavelength: real)

  /**
   * The window search over the first `n` pixels: it starts from intensity -1
   * at the target wavelength, and an in-window pixel replaces the best only
   * with a strictly higher intensity.
   */
  function WindowPeak(d: SpectralData, target: real, tol: real, n: nat): Best
    requires d.Aligned() && n <= |d.wavelengths|
  {
    if n == 0 then Best(-1.0, target)
    else
      var b := WindowPeak(d, target, tol, n - 1);
      if InWindow(d.wavelengths[n - 1], target, tol) && d.intensities[n - 1] > b.intensity
      then Best(d.intensities[n - 1], d.wavelengths[n - 1])
      else b
  }

  /** The search stops after the first pixel above the window, so it sees exactly the pixels before it. */
  function PeakWavelength(d: SpectralData, target: real, tol: real): real
    requires d.Aligned()
  {
    WindowPeak(d, target, tol, FirstAbove(d.wavelengths, target + tol)).wavelength
  }

  /** No in-window pixel among the first `n` rises above -1. */
  predicate NoWindowPeak(d: SpectralData, target: real, tol: real, n: nat)
    requires d.Aligned() && n <= |d.wavelengths|
  {
    forall j :: 0 <= j < n && InWindow(d.wavelengths[j], target, tol) ==> d.intensities[j] <= -1.0
  }

  /** Pixel `k` is the first in-window pixel among the first `n` with the largest in-window intensity, and that intensity is above -1. */
  predicate WindowPeakAt(d: SpectralData, target: real, tol: real, n: nat, k: nat)
    requires d.Aligned() && n <= |d.wavelengths|
  {
    && k < n && InWindow(d.wavelengths[k], target, tol) && d.intensities[k] > -1.0
    && (forall j :: 0 <= j < n && InWindow(d.wavelengths[j], target, tol) ==> d.intensities[j] <= d.intensities[k])
    && (forall j :: 0 <= j < k && InWindow(d.wavelengths[j], target, tol) ==> d.intensities[j] < d.intensities[k])
  }

  /**
   * The window search finds the first strongest in-window pixel `k`, or keeps
   * the target (`k` is -1) when no in-window pixel rises above -1.
   */
  lemma {:induction false} WindowPeakCharacterised(d: SpectralData, target: real, tol: real, n: nat) returns (k: int)
    requires d.Aligned() && n <= |d.wavelengths|
    ensures k == -1 ==> NoWindowPeak(d, target, tol, n) && WindowPeak(d, target, tol, n) == Best(-1.0, target)
    ensures k != -1 ==> 0 <= k && WindowPeakAt(d, target, tol, n, k)
                        && WindowPeak(d, target, tol, n) == Best(d.intensities[k], d.wavelengths[k])
  {
    if n == 0 {
      return -1;
    }
    var p := n - 1;
    k := WindowPeakCharacterised(d, target, tol, p);
    var b := WindowPeak(d, target, tol, p);
    if InWindow(d.wavelengths[p], target, tol) && d.intensities[p] > b.intensity {
      k := p;
    }
  }

  /** Pixels past the first one above the window are never in it when wavelengths ascend, so they change nothing. */
  lemma {:induction false} PastWindowIgnored(d: SpectralData, target: real, tol: real, n: nat)
    requires d.Aligned() && Ascending(d.wavelengths)
    requires FirstAbove(d.wavelengths, target + tol) <= n <= |d.wavelengths|
    ensures WindowPeak(d, target, tol, n) == WindowPeak(d, target, tol, FirstAbove(d.wavelengths, target + tol))
  {
    var k := FirstAbove(d.wavelengths, target + tol);
    if n > k {
      PastWindowIgnored(d, target, tol, n - 1);
      assert d.wavelengths[k] <= d.wavelengths[n - 1];
    }
  }

  /**
   * For ascending wavelengths the early exit loses nothing: the result is the
   * wavelength of the first in-window pixel with the largest intensity over
   * the whole spectrum, or the target when no in-window pixel rises above -1.
   */
  lemma EarlyExitMatchesFullScan(d: SpectralData, target: real, tol: real) returns (k: int)
    requires d.Aligned() && Ascending(d.wavelengths)
    ensures PeakWavelength(d, target, tol) == WindowPeak(d, target, tol, |d.wavelengths|).wavelength
    ensures k == -1 ==> NoWindowPeak(d, target, tol, |d.wavelengths|) && PeakWavelength(d, target, tol) == target
    ensures k != -1 ==> 0 <= k && WindowPeakAt(d, target, tol, |d.wavelengths|, k)
                        && PeakWavelength(d, target, tol) == d.wavelengths[k]
  {
    PastWindowIgnored(d, target, tol, |d.wavelengths|);
    k := WindowPeakCharacterised(d, target, tol, |d.wavelengths|);
  }

  /** Looks for the strongest pixel within `tol` of `target`, stopping at the first pixel above the window. */
  method GetActualPeakWavelength(d: SpectralData, target: real, tol: real) returns (actual: real)
    requires d.Aligned()
    ensures actual == PeakWavelength(d, target, tol)
  {
    if |d.wavelengths| == 0 {
      return target;
    }
    var maxIntensity := -1.0;
    actual := target;
    var i := 0;
    while i < |d.wavelengths|
      invariant 0 <= i <= |d.wavelengths|
      invariant forall j :: 0 <= j < i ==> d.wavelengths[j] <= target + tol
      invariant Best(maxIntensity, actual) == WindowPeak(d, target, tol, i)
    {
      var currentW := d.wavelengths[i];
      if Dist(currentW, target) <= tol {
        if d.intensities[i] > maxIntensity {
          maxIntensity := d.intensities[i];
          actual := currentW;
        }
      }
      if currentW > target + tol {
        return;
      }
      i := i + 1;
    }
  }

  // ----- GetIntensityAtWavelength -----

  /**
   * The nearest-pixel scan from pixel `i` on, holding the best index so far and
   * the smallest distance so far (`None` before the first pixel: every
   * distance beats the initial `double.MaxValue`). It stops at the first pixel
   * that is no closer and lies above `x`.
   */
  function NearestFrom(w: seq<real>, x: real, i: nat, best: nat, minDiff: Option<real>): (k: nat)
    requires i <= |w| && best < |w|
    ensures k < |w|
    decreases |w| - i
  {
    if i == |w| then best
    else
      var diff := Dist(w[i], x);
      if minDiff.None? || diff < minDiff.value then NearestFrom(w, x, i + 1, i, Some(diff))
      else if w[i] > x then best
      else NearestFrom(w, x, i + 1, best, minDiff)
  }

  /** The pixel the nearest-pixel scan settles on; always a valid index. */
  function Nearest(w: seq<real>, x: real): (k: nat)
    requires w != []
    ensures k < |w|
  {
    NearestFrom(w, x, 0, 0, None)
  }

  /** The intensity at the pixel nearest `x`, or 0 for an empty spectrum. */
  function IntensityAt(d: SpectralData, x: real): real
    requires d.Aligned()
  {
    if d.wavelengths == [] then 0.0 else d.intensities[Nearest(d.wavelengths, x)]
  }

  /** The scan from pixel `i`, once it holds the first closest pixel of the prefix, ends on the first closest pixel of the whole ascending spectrum. */
  lemma {:induction false} NearestFromClosest(w: seq<real>, x: real, i: nat, best: nat, minDiff: Option<real>)
    requires Ascending(w) && i <= |w| && best < |w|
    requires i == 0 ==> minDiff == None
    requires i > 0 ==> best < i && minDiff == Some(Dist(w[best], x))
    requires forall j :: 0 <= j < i ==> Dist(w[best], x) <= Dist(w[j], x)
    requires forall j :: 0 <= j < best ==> Dist(w[best], x) < Dist(w[j], x)
    requires i == |w| ==> i > 0
    ensures var k := NearestFrom(w, x, i, best, minDiff);
            && (forall j :: 0 <= j < |w| ==> Dist(w[k], x) <= Dist(w[j], x))
            && (forall j :: 0 <= j < k ==> Dist(w[k], x) < Dist(w[j], x))
    decreases |w| - i
  {
    if i < |w| {
      var diff := Dist(w[i], x);
      if minDiff.None? || diff < minDiff.value {
        NearestFromClosest(w, x, i + 1, i, Some(diff));
      } else if w[i] > x {
        forall j | i <= j < |w|
          ensures Dist(w[best], x) <= Dist(w[j], x)
        {
          assert w[i] <= w[j];
        }
      } else {
        NearestFromClosest(w, x, i + 1, best, minDiff);
      }
    }
  }

  /** For ascending wavelengths the lookup reads the first pixel closest to `x`. */
  lemma NearestIsClosest(w: seq<real>, x: real)
    requires w != [] && Ascending(w)
    ensures forall j :: 0 <= j < |w| ==> Dist(w[Nearest(w, x)], x) <= Dist(w[j], x)
    ensures forall j :: 0 <= j < Nearest(w, x) ==> Dist(w[Nearest(w, x)], x) < Dist(w[j], x)
  {
    NearestFromClosest(w, x, 0, 0, None);
  }

  /** Reads the intensity of the pixel nearest `x`, leaving the scan once the distances start growing above `x`. */
  method GetIntensityAtWavelength(d: SpectralData, x: real) returns (r: real)
    requires d.Aligned()
    ensures r == IntensityAt(d, x)
  {
    if |d.wavelengths| == 0 {
      return 0.0;
    }
    var bestIndex := 0;
    var minDiff: Option<real> := None;
    var i := 0;
    while i < |d.wavelengths|
      invariant 0 <= i <= |d.wavelengths| && bestIndex < |d.wavelengths|
      invariant NearestFrom(d.wavelengths, x, i, bestIndex, minDiff) == Nearest(d.wavelengths, x)
    {
      var diff := Dist(d.wavelengths[i], x);
      if minDiff.None? || diff < minDiff.value {
        minDiff := Some(diff);
        bestIndex := i;
      } else if d.wavelengths[i] > x {
        break;
      }
      i := i + 1;
    }
    return d.intensities[bestIndex];
  }

  // ----- Saturation alert and cache -----

  /** Some pixel lies strictly above the alert limit. */
  predicate AboveAlertLimit(d: SpectralData) {
    exists j :: 0 <= j < |d.intensities| && d.intensities[j] > AlertLimit
  }

  /** The cache after samples `ds` arrive in order: each serial maps to the last sample it sent. */
  function Cached(cache: map<string, SpectralData>, ds: seq<SpectralData>): (c: map<string, SpectralData>)
    ensures c.Keys == cache.Keys + set d | d in ds :: d.serial
    decreases |ds|
  {
    if ds == [] then cache
    else
      var c := Cached(cache[ds[0].serial := ds[0]], ds[1..]);
      assert forall d :: d in ds <==> d == ds[0] || d in ds[1..];
      c
  }

  /** A sample is what the cache holds for its serial when no later sample came from the same device. */
  lemma {:induction false} CachedKeepsLatest(cache: map<string, SpectralData>, ds: seq<SpectralData>, k: nat)
    requires k < |ds|
    requires forall j :: k < j < |ds| ==> ds[j].serial != ds[k].serial
    ensures ds[k].serial in Cached(cache, ds) && Cached(cache, ds)[ds[k].serial] == ds[k]
    decreases |ds|
  {
    if k == 0 {
      CachedUntouched(cache[ds[0].serial := ds[0]], ds[1..], ds[0].serial);
    } else {
      CachedKeepsLatest(cache[ds[0].serial := ds[0]], ds[1..], k - 1);
    }
  }

  /** Samples from other devices leave a serial's entry alone. */
  lemma {:induction false} CachedUntouched(cache: map<string, SpectralData>, ds: seq<SpectralData>, serial: string)
    requires serial in cache
    requires forall j :: 0 <= j < |ds| ==> ds[j].serial != serial
    ensures serial in Cached(cache, ds) && Cached(cache, ds)[serial] == cache[serial]
    decreases |ds|
  {
    if ds != [] {
      CachedUntouched(cache[ds[0].serial := ds[0]], ds[1..], serial);
    }
  }

  class SpectrometerLogic {
    /** The device configuration's saturation-detection switch. */
    var saturationDetectionEnabled: bool
    /** The latest sample of each device, by serial. */
    var latestDataCache: map<string, SpectralData>
    /** How many saturation status messages have been sent. */
    ghost var alerts: nat

    constructor (saturationDetectionEnabled: bool)
      ensures this.saturationDetectionEnabled == saturationDetectionEnabled
      ensures latestDataCache == map[] && alerts == 0
    {
      this.saturationDetectionEnabled := saturationDetectionEnabled;
      latestDataCache := map[];
      alerts := 0;
    }

    /** A new sample: checked for saturation when detection is on, then cached under its serial. */
    method OnSpectralDataReceived(data: SpectralData)
      modifies this`latestDataCache, this`alerts
      ensures latestDataCache == Cached(old(latestDataCache), [data])
      ensures alerts == old(alerts) + (if saturationDetectionEnabled && AboveAlertLimit(data) then 1 else 0)
    {
      if saturationDetectionEnabled {
        CheckSaturation(data);
      }
      latestDataCache := latestDataCache[data.serial := data];
    }

    /** Sends one status message when some pixel is above the alert limit. */
    method CheckSaturation(data: SpectralData)
      modifies this`alerts
      ensures alerts == old(alerts) + (if AboveAlertLimit(data) then 1 else 0)
    {
      if exists j :: 0 <= j < |data.intensities| && data.intensities[j] > AlertLimit {
        alerts := alerts + 1;
      }
    }
  }
}
