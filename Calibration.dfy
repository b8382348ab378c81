/**
 * Homing and peak-seeking calibration over the motion controller. Homing
 * drives every axis not already at its min switch towards it, X then Y then Z;
 * calibration sweeps one homed axis to the far end and then returns it to the
 * target that the spectral samples taken during the sweep have set.
 *
 * Cancellation is an explicit input. For homing it is the number of
 * inter-axis pauses that complete before the pause that sees the caller's
 * token cancelled; for calibration it is the phase during which the token fires.
 */
module Calibration {
  import opened CSharp
  import opened Wrappers
  import opened Commands
  import opened PlatformModel
  import opened Platform3D
  import opened Sequences

  /** The distance of a homing move and of a calibration sweep: past the full travel of any axis. */
  const HomeDistance: int := MaxValidStep + 500
  /** Each homing move is cut off after this long. */
  const AxisTimeoutMs: int := 30000
  const HomingPauseMs: int := 500
  const SettleMs: int := 2000
  /** The order in which homing visits the axes. */
  const AllAxes: seq<Axis> := [X, Y, Z]

  /**
   * A homing move waits 34.5 s, longer than the 30 s axis timeout, so the timeout
   * always cancels it: `MoveAxisAsync` swallows that cancellation and returns
   * false, and the software never books a homing move.
   */
  lemma HomingMoveAlwaysTimesOut()
    ensures HomeDistance == 17000
    ensures CalculateMoveDelay(HomeDistance) == 34500 > AxisTimeoutMs
  {
  }

  /**
   * As written, the Z floor check refuses the Z homing move from every
   * position below 15000, while Z travels only 4600 steps: the Z move is
   * never sent from any reachable Z coordinate.
   */
  lemma ZHomingRefused(s: PlatformSavedData, moving: bool)
    requires s.Complete() && s.z < HomeDistance + ZAxisMinLimit
    ensures MoveOutcome(s, moving, Z, HomeDistance, false, true) == Refused
  {
  }

  /** The limit-switch signal heard while the homing move of `axis` waits, if any. */
  function Heard(signals: map<Axis, BoundarySignal>, axis: Axis): Option<BoundarySignal> {
    if axis in signals then Some(signals[axis]) else None
  }

  datatype Outcome = Completed | Canceled | InvalidState

  /** What a homing run does: the final state, the platform events, the pauses completed, and whether it was canceled. */
  datatype Homing = Homing(state: PlatformSavedData, events: seq<PlatformEvent>, pauses: nat, canceled: bool)

  /** Prefixes events and pauses that happened before a homing suffix. */
  function After(events: seq<PlatformEvent>, pauses: nat, h: Homing): Homing {
    Homing(h.state, events + h.events, pauses + h.pauses, h.canceled)
  }

  /**
   * Homing over `axes`, `paused` pauses having completed already. An axis at
   * its min switch is skipped with no move and no pause; any other gets one
   * negative move of `HomeDistance`, cut off by the timeout, hearing `signals[a]` if present
   * while it waits, and then a pause, which is where a cancellation of the
   * caller's token is seen (at pause number `cancelAt`).
   */
  function HomeAxes(s: PlatformSavedData, moving: bool, axes: seq<Axis>,
                    signals: map<Axis, BoundarySignal>, cancelAt: Option<nat>, paused: nat): (h: Homing)
    requires s.Complete()
    ensures h.state.Complete()
    ensures h.pauses <= |axes|
    ensures h.canceled ==> cancelAt == Some(paused + h.pauses)
    ensures !h.canceled && cancelAt.Some? ==> cancelAt.value < paused || cancelAt.value >= paused + h.pauses
    decreases |axes|
  {
    if axes == [] then Homing(s, [], 0, false)
    else
      var a := axes[0];
      if s.isAtMin[a] then HomeAxes(s, moving, axes[1..], signals, cancelAt, paused)
      else
        var e := MoveEffect(s, moving, a, HomeDistance, false, Heard(signals, a), true);
        if cancelAt == Some(paused) then Homing(e.state, e.events, 0, true)
        else After(e.events, 1, HomeAxes(e.state, moving, axes[1..], signals, cancelAt, paused + 1))
  }

  /** One step of the homing loop: how the rest of the run after a visited axis relates to the whole. */
  lemma HomingStep(whole: Homing, events: seq<PlatformEvent>, paused: nat, s: PlatformSavedData, moving: bool,
                   axes: seq<Axis>, signals: map<Axis, BoundarySignal>, cancelAt: Option<nat>)
    requires s.Complete() && axes != []
    requires whole == After(events, paused, HomeAxes(s, moving, axes, signals, cancelAt, paused))
    ensures s.isAtMin[axes[0]] ==> whole == After(events, paused, HomeAxes(s, moving, axes[1..], signals, cancelAt, paused))
    ensures var e := MoveEffect(s, moving, axes[0], HomeDistance, false, Heard(signals, axes[0]), true);
            && (!s.isAtMin[axes[0]] && cancelAt == Some(paused) ==> whole == Homing(e.state, events + e.events, paused, true))
            && (!s.isAtMin[axes[0]] && cancelAt != Some(paused) ==>
                  whole == After(events + e.events, paused + 1, HomeAxes(e.state, moving, axes[1..], signals, cancelAt, paused + 1)))
  {
    var e := MoveEffect(s, moving, axes[0], HomeDistance, false, Heard(signals, axes[0]), true);
    if !s.isAtMin[axes[0]] && cancelAt != Some(paused) {
      var rest := HomeAxes(e.state, moving, axes[1..], signals, cancelAt, paused + 1);
      assert events + (e.events + rest.events) == (events + e.events) + rest.events;
    }
  }

  lemma RepeatOneMore(n: nat, v: int)
    ensures seq(n + 1, _ => v) == seq(n, _ => v) + [v]
  {
  }

  /** Homing with every axis already at its min switch does nothing at all. */
  lemma {:induction false} AllHomedNothingToDo(s: PlatformSavedData, moving: bool, axes: seq<Axis>,
                                               signals: map<Axis, BoundarySignal>, cancelAt: Option<nat>, paused: nat)
    requires s.Complete() && forall a: Axis :: s.isAtMin[a]
    ensures HomeAxes(s, moving, axes, signals, cancelAt, paused) == Homing(s, [], 0, false)
    decreases |axes|
  {
    if axes != [] {
      AllHomedNothingToDo(s, moving, axes[1..], signals, cancelAt, paused);
    }
  }

  /**
   * Without limit-switch reports homing changes no coordinate or flag: each
   * move is refused or cut off by the timeout before it is booked.
   */
  lemma {:induction false} HomingBooksNothing(s: PlatformSavedData, moving: bool, axes: seq<Axis>,
                                              signals: map<Axis, BoundarySignal>, cancelAt: Option<nat>, paused: nat)
    requires s.Complete() && signals == map[]
    ensures HomeAxes(s, moving, axes, signals, cancelAt, paused).state == s
    decreases |axes|
  {
    if axes != [] {
      HomingBooksNothing(s, moving, axes[1..], signals, cancelAt, paused);
      if !s.isAtMin[axes[0]] {
        HomingBooksNothing(s, moving, axes[1..], signals, cancelAt, paused + 1);
      }
    }
  }

  /**
   * When the min switch of X reports during the X homing move, X ends at 0 with
   * its min flag set, and the move command sent is a negative 17000-step move of X.
   */
  lemma HomingXBySwitch(s: PlatformSavedData, signals: map<Axis, BoundarySignal>)
    requires s.Complete() && !s.isAtMin[X] && !s.isAtMax[X]
    requires X in signals && signals[X] == BoundarySignal(X, true)
    ensures var e := MoveEffect(s, false, X, HomeDistance, false, Heard(signals, X), true);
            && e.state.x == 0 && e.state.isAtMin[X]
            && e.events[0] == SentMove(X, false, HomeDistance)
  {
  }

  /** How the token ends a single-axis calibration: never, or during the sweep, the settle wait or the return move. */
  datatype CancelPoint = Never | DuringSweep | DuringSettle | DuringReturn

  /** What a calibration run does: its outcome, the final state, the platform events, and whether the settle wait completed. */
  datatype CalibrationRun = CalibrationRun(outcome: Outcome, state: PlatformSavedData, events: seq<PlatformEvent>, settled: bool)

  /**
   * Calibration of one axis towards `target`. An axis not at its min switch is
   * rejected before anything moves. Otherwise it sweeps positive by
   * `HomeDistance`; a cancellation during the sweep or the settle wait stops
   * the platform and ends the run; after the settle wait the axis returns by
   * `position - target` when that is positive. A cancellation during the
   * return move is swallowed by the move and the run completes.
   */
  function Calibrate(s: PlatformSavedData, moving: bool, target: int, axis: Axis,
                     sweepReport: Option<BoundarySignal>, returnReport: Option<BoundarySignal>, cancel: CancelPoint): (c: CalibrationRun)
    requires s.Complete()
    ensures c.state.Complete()
    ensures c.outcome == InvalidState <==> !s.isAtMin[axis]
    ensures c.outcome == InvalidState ==> c.state == s && c.events == []
    ensures c.outcome == Canceled <==> s.isAtMin[axis] && (cancel == DuringSweep || cancel == DuringSettle)
    ensures c.outcome == Canceled ==> |c.events| > 0 && c.events[|c.events| - 1] == Stopped
    ensures c.settled <==> c.outcome == Completed
  {
    if !s.isAtMin[axis] then CalibrationRun(InvalidState, s, [], false)
    else
      var sweep := MoveEffect(s, moving, axis, HomeDistance, true, sweepReport, cancel == DuringSweep);
      if cancel == DuringSweep || cancel == DuringSettle then
        CalibrationRun(Canceled, sweep.state, sweep.events + [Stopped], false)
      else
        var back := ReturnPhase(sweep.state, moving, target, axis, returnReport, cancel == DuringReturn);
        CalibrationRun(Completed, back.state, sweep.events + back.events, true)
  }

  /** The return after the settle wait: a negative move by `position - target` when that is positive, else nothing. */
  function ReturnPhase(s: PlatformSavedData, moving: bool, target: int, axis: Axis,
                       returnReport: Option<BoundarySignal>, cancelled: bool): (e: Effect)
    requires s.Complete()
    ensures e.state.Complete()
    ensures s.At(axis) <= target ==> e == Effect(s, [])
    ensures s.At(axis) > target ==>
              (e.events == [] <==> moving || !CheckSafety(s, axis, s.At(axis) - target, false))
    ensures s.At(axis) > target && e.events == [] ==> e.state == s
    ensures s.At(axis) > target && e.events != [] ==> e.events[0] == SentMove(axis, false, s.At(axis) - target)
    ensures s.At(axis) > target && e.events != [] && !cancelled && returnReport.None? ==> e.state.At(axis) == target
  {
    var returnDistance := s.At(axis) - target;
    if returnDistance > 0 then MoveEffect(s, moving, axis, returnDistance, false, returnReport, cancelled)
    else Effect(s, [])
  }

  lemma CalibrateCanceled(s: PlatformSavedData, moving: bool, target: int, axis: Axis,
                          sweepReport: Option<BoundarySignal>, returnReport: Option<BoundarySignal>, cancel: CancelPoint)
    requires s.Complete() && s.isAtMin[axis] && (cancel == DuringSweep || cancel == DuringSettle)
    ensures var sweep := MoveEffect(s, moving, axis, HomeDistance, true, sweepReport, cancel == DuringSweep);
            Calibrate(s, moving, target, axis, sweepReport, returnReport, cancel)
              == CalibrationRun(Canceled, sweep.state, sweep.events + [Stopped], false)
  {
  }

  lemma CalibrateCompleted(s: PlatformSavedData, moving: bool, target: int, axis: Axis,
                           sweepReport: Option<BoundarySignal>, returnReport: Option<BoundarySignal>, cancel: CancelPoint)
    requires s.Complete() && s.isAtMin[axis] && (cancel == Never || cancel == DuringReturn)
    ensures var sweep := MoveEffect(s, moving, axis, HomeDistance, true, sweepReport, false);
            var back := ReturnPhase(sweep.state, moving, target, axis, returnReport, cancel == DuringReturn);
            Calibrate(s, moving, target, axis, sweepReport, returnReport, cancel)
              == CalibrationRun(Completed, back.state, sweep.events + back.events, true)
  {
  }

  /**
   * With no switch reports and no cancellation, a homed idle axis ends exactly
   * at the target, provided the target lies below the swept position (and, on
   * Z, not below the floor).
   */
  lemma CalibrationReachesTarget(s: PlatformSavedData, target: int, axis: Axis)
    requires s.Complete() && s.BoundaryConsistent() && s.isAtMin[axis]
    requires target < s.At(axis) + HomeDistance
    requires axis == Z ==> target >= ZAxisMinLimit
    ensures var c := Calibrate(s, false, target, axis, None, None, Never);
            c.outcome == Completed && c.state.At(axis) == target
  {
    assert !s.isAtMax[axis];
    var sweep := MoveEffect(s, false, axis, HomeDistance, true, None, false);
    AfterMoveEffect(s, axis, HomeDistance, true);
    assert sweep.state == AfterMove(s, axis, HomeDistance, true);
    var d := sweep.state.At(axis) - target;
    assert d > 0;
    assert !sweep.state.isAtMin[axis];
    assert axis == Z ==> sweep.state.z == sweep.state.At(axis);
    assert CheckSafety(sweep.state, axis, d, false);
    AfterMoveEffect(sweep.state, axis, d, false);
  }

  /**
   * When the max switch reports during the sweep, the position is first set to
   * the axis travel and then the whole sweep is added on top of it, so the
   * software position ends `HomeDistance` beyond the travel.
   */
  lemma MaxSwitchDuringSweep(s: PlatformSavedData, axis: Axis, frame: seq<byte>)
    requires s.Complete() && s.BoundaryConsistent() && s.isAtMin[axis]
    requires |frame| >= 8 && frame[6] == BoundarySignal(axis, false).Code()
    ensures var e := MoveEffect(s, false, axis, HomeDistance, true, FrameSignal(frame), false);
            e.state.At(axis) == GetMaxStep(axis) + HomeDistance && e.state.isAtMax[axis]
  {
    assert !s.isAtMax[axis];
    assert SignalOf(frame[6]) == Some(BoundarySignal(axis, false));
    var t := AfterBoundary(s, axis, false);
    AfterBoundaryEffect(s, axis, false);
    AfterMoveEffect(t, axis, HomeDistance, true);
  }

  /** The target for a peak seen `peak` ms into a scan of `total` ms: the same fraction of the axis travel, rounded half to even. */
  function TargetFor(axis: Axis, total: int, peak: int): int
    requires total > 0
  {
    RoundHalfEven(GetMaxStep(axis) * peak, total)
  }

  /** A peak inside the scan gives a target inside the axis travel, and the target is the nearest step to the exact fraction. */
  lemma TargetWithinTravel(axis: Axis, total: int, peak: int)
    requires total > 0 && 0 <= peak <= total
    ensures 0 <= TargetFor(axis, total, peak) <= GetMaxStep(axis)
    ensures 2 * Abs(GetMaxStep(axis) * peak - TargetFor(axis, total, peak) * total) <= total
  {
    var m := GetMaxStep(axis);
    assert m * peak <= m * total;
    RoundHalfEvenBounds(m * peak, total, 0, m);
  }

  /** Exact halves round to the even neighbour: Z at 1/400 of the scan is 11.5 steps, giving 12; at 3/400, 34.5 gives 34. */
  lemma TargetTiesToEven()
    ensures TargetFor(Z, 400, 1) == 12 && TargetFor(Z, 400, 3) == 34
    ensures TargetFor(X, 4000, 2000) == 7750
  {
  }

  class CalibrationLogic {
    const platform: Platform3DService
    /** The computed target of each axis, in steps. */
    var targetPositions: map<Axis, int>
    /** The waits this logic performs itself, in ms, that ran to completion. */
    ghost var pauses: seq<int>

    predicate Valid()
      reads this, platform.status
    {
      platform.Valid() && forall a: Axis :: a in targetPositions
    }

    constructor (platform: Platform3DService)
      requires platform.Valid()
      ensures Valid() && this.platform == platform
      ensures forall a: Axis :: targetPositions[a] == 0
      ensures pauses == []
    {
      this.platform := platform;
      targetPositions := map[X := 0, Y := 0, Z := 0];
      pauses := [];
      new;
      forall a: Axis
        ensures a in targetPositions && targetPositions[a] == 0
      {
        match a
        case X =>
        case Y =>
        case Z =>
      }
    }

    /** Records the target for a scan of `total` ms peaking at `peak` ms; a non-positive total changes nothing. */
    method SetTargetByIntensityTime(axis: Axis, total: int, peak: int)
      modifies this`targetPositions
      ensures total <= 0 ==> targetPositions == old(targetPositions)
      ensures total > 0 ==> targetPositions == old(targetPositions)[axis := TargetFor(axis, total, peak)]
    {
      if total <= 0 {
        return;
      }
      targetPositions := targetPositions[axis := TargetFor(axis, total, peak)];
    }

    /**
     * Homes X, Y and Z in that order. `signals[a]`, if present, is the limit-switch signal heard
     * while the homing move of `a` waits; `cancelAt` is the pause at which the
     * caller's token is seen cancelled, after which the platform is stopped.
     */
    method AutoHomeAllAxes(signals: map<Axis, BoundarySignal>, cancelAt: Option<nat>) returns (outcome: Outcome)
      requires Valid()
      modifies this`pauses, platform, platform.position, platform.status
      ensures Valid()
      ensures var h := HomeAxes(old(platform.State()), old(platform.status.isMoving), AllAxes, signals, cancelAt, 0);
              && outcome == (if h.canceled then Canceled else Completed)
              && platform.State() == h.state
              && platform.log == old(platform.log) + h.events + (if h.canceled then [Stopped] else [])
              && pauses == old(pauses) + seq(h.pauses, _ => HomingPauseMs)
              && platform.status.isMoving == (old(platform.status.isMoving) && !h.canceled)
      ensures targetPositions == old(targetPositions)
    {
      ghost var m0, log0, pauses0 := platform.status.isMoving, platform.log, pauses;
      ghost var whole := HomeAxes(platform.State(), m0, AllAxes, signals, cancelAt, 0);
      ghost var events: seq<PlatformEvent> := [];
      var paused: nat := 0;
      var i := 0;
      assert whole == After([], 0, whole);
      while i < |AllAxes|
        invariant 0 <= i <= |AllAxes|
        invariant Valid()
        invariant whole == After(events, paused, HomeAxes(platform.State(), m0, AllAxes[i..], signals, cancelAt, paused))
        invariant platform.log == log0 + events
        invariant pauses == pauses0 + seq(paused, _ => HomingPauseMs)
        invariant platform.status.isMoving == m0
        invariant targetPositions == old(targetPositions)
        decreases |AllAxes| - i
      {
        var canceled;
        canceled, events, paused := VisitAxis(i, whole, events, paused, signals, cancelAt, m0, log0, pauses0);
        if canceled {
          return Canceled;
        }
        i := i + 1;
      }
      assert AllAxes[i..] == [];
      return Completed;
    }

    /**
     * The body of the homing loop for the axis at index `i`: skipped when at
     * its min switch, otherwise homed; the rest of the run stays what the
     * whole run predicts.
     */
    method VisitAxis(i: nat, ghost whole: Homing, ghost events: seq<PlatformEvent>, paused: nat,
                     signals: map<Axis, BoundarySignal>, cancelAt: Option<nat>,
                     ghost m0: bool, ghost log0: seq<PlatformEvent>, ghost pauses0: seq<int>)
      returns (canceled: bool, ghost events': seq<PlatformEvent>, paused': nat)
      requires i < |AllAxes| && Valid() && platform.status.isMoving == m0
      requires whole == After(events, paused, HomeAxes(platform.State(), m0, AllAxes[i..], signals, cancelAt, paused))
      requires platform.log == log0 + events
      requires pauses == pauses0 + seq(paused, _ => HomingPauseMs)
      modifies this`pauses, platform, platform.position, platform.status
      ensures Valid()
      ensures !canceled ==>
                && whole == After(events', paused', HomeAxes(platform.State(), m0, AllAxes[i + 1..], signals, cancelAt, paused'))
                && platform.log == log0 + events'
                && pauses == pauses0 + seq(paused', _ => HomingPauseMs)
                && platform.status.isMoving == m0
      ensures canceled ==>
                && whole.canceled && platform.State() == whole.state
                && platform.log == log0 + whole.events + [Stopped]
                && pauses == pauses0 + seq(whole.pauses, _ => HomingPauseMs)
                && !platform.status.isMoving
    {
      var axis := AllAxes[i];
      ghost var s := platform.State();
      assert AllAxes[i..][1..] == AllAxes[i + 1..];
      HomingStep(whole, events, paused, s, m0, AllAxes[i..], signals, cancelAt);
      if platform.status.isAtMin[axis] {
        return false, events, paused;
      }
      ghost var e := MoveEffect(s, m0, axis, HomeDistance, false, Heard(signals, axis), true);
      canceled := HomeAxis(axis, Heard(signals, axis), cancelAt == Some(paused));
      AppendAssoc(log0, events, e.events);
      if canceled {
        AppendAssoc(log0, events + e.events, [Stopped]);
        return true, events, paused;
      }
      RepeatOneMore(paused, HomingPauseMs);
      AppendAssoc(pauses0, seq(paused, _ => HomingPauseMs), [HomingPauseMs]);
      events', paused' := events + e.events, paused + 1;
    }

    /**
     * One visited axis of the homing loop: the negative homing move (whose own
     * timeout always cuts it off), then the inter-axis pause, during which the
     * caller's token may be seen cancelled; a cancellation stops the platform.
     */
    method HomeAxis(axis: Axis, signal: Option<BoundarySignal>, cancelledInPause: bool) returns (canceled: bool)
      requires Valid()
      modifies this`pauses, platform, platform.position, platform.status
      ensures Valid()
      ensures canceled == cancelledInPause
      ensures var e := MoveEffect(old(platform.State()), old(platform.status.isMoving), axis, HomeDistance, false, signal, true);
              && platform.State() == e.state
              && platform.log == old(platform.log) + e.events + (if canceled then [Stopped] else [])
              && pauses == old(pauses) + (if canceled then [] else [HomingPauseMs])
              && platform.status.isMoving == (old(platform.status.isMoving) && !canceled)
    {
      var _ := platform.MoveAxisAsync(axis, HomeDistance, false, signal, true);
      if cancelledInPause {
        platform.StopAll();
        return true;
      }
      pauses := pauses + [HomingPauseMs];
      return false;
    }

    /**
     * Calibrates one axis: `sweepReport` and `returnReport` are the platform
     * frames heard during the two moves, `cancel` the phase in which the
     * caller's token fires. The target is read after the settle wait.
     */
    method CalibrateAxis(axis: Axis, sweepReport: Option<BoundarySignal>, returnReport: Option<BoundarySignal>, cancel: CancelPoint)
      returns (outcome: Outcome)
      requires Valid()
      modifies this`pauses, platform, platform.position, platform.status
      ensures Valid()
      ensures var c := Calibrate(old(platform.State()), old(platform.status.isMoving),
                                 old(targetPositions[axis]), axis, sweepReport, returnReport, cancel);
              && outcome == c.outcome
              && platform.State() == c.state
              && platform.log == old(platform.log) + c.events
              && pauses == old(pauses) + (if c.settled then [SettleMs] else [])
              && platform.status.isMoving == (old(platform.status.isMoving) && c.outcome != Canceled)
      ensures targetPositions == old(targetPositions)
    {
      ghost var s0, m0, log0 := platform.State(), platform.status.isMoving, platform.log;
      ghost var whole := Calibrate(s0, m0, targetPositions[axis], axis, sweepReport, returnReport, cancel);
      if !platform.status.isAtMin[axis] {
        return InvalidState;
      }
      ghost var sweep := MoveEffect(s0, m0, axis, HomeDistance, true, sweepReport, cancel == DuringSweep);
      var _ := platform.MoveAxisAsync(axis, HomeDistance, true, sweepReport, cancel == DuringSweep);
      if cancel == DuringSweep || cancel == DuringSettle {
        platform.StopAll();
        AppendAssoc(log0, sweep.events, [Stopped]);
        CalibrateCanceled(s0, m0, targetPositions[axis], axis, sweepReport, returnReport, cancel);
        return Canceled;
      }
      pauses := pauses + [SettleMs];
      ghost var back := ReturnPhase(sweep.state, m0, targetPositions[axis], axis, returnReport, cancel == DuringReturn);
      CalibrateCompleted(s0, m0, targetPositions[axis], axis, sweepReport, returnReport, cancel);
      ReturnToTarget(axis, returnReport, cancel == DuringReturn);
      AppendAssoc(log0, sweep.events, back.events);
      return Completed;
    }

    /** After the settle wait: reads the target and moves the axis back down to it if it lies below. */
    method ReturnToTarget(axis: Axis, returnReport: Option<BoundarySignal>, cancelled: bool)
      requires Valid()
      modifies platform, platform.position, platform.status
      ensures Valid()
      ensures var e := ReturnPhase(old(platform.State()), old(platform.status.isMoving),
                                   targetPositions[axis], axis, returnReport, cancelled);
              platform.State() == e.state && platform.log == old(platform.log) + e.events
      ensures platform.status.isMoving == old(platform.status.isMoving)
    {
      var target := targetPositions[axis];
      var currentPos := platform.position.Get(axis);
      assert currentPos == platform.State().At(axis) by {
        match axis
        case X =>
        case Y =>
        case Z =>
      }
      var returnDistance := currentPos - target;
      if returnDistance > 0 {
        var _ := platform.MoveAxisAsync(axis, returnDistance, false, returnReport, cancelled);
      }
    }
  }
}
