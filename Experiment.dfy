/**
 * The spatial-distribution experiment: along one axis, point after point,
 * take a fixed number of spectral acquisitions, then step the axis forward
 * and let the mechanics settle, until the axis reaches its max switch, a move
 * fails or the caller cancels.
 *
 * The caller's cancellation token is observed at five places: the loop
 * condition, the check before each acquisition, each wait between
 * acquisitions, the move, and the settle wait. The observations are numbered
 * in the order the run makes them, and `cancelAt` is the number of the first
 * one that sees the token cancelled; every later one sees it cancelled too.
 * A cancelled loop condition ends the run quietly; a cancelled check or wait
 * throws, which stops the platform and ends the run as `Canceled`; a
 * cancelled move makes the move report failure.
 */
module Experiment {
  import opened CSharp
  import opened Wrappers
  import opened PlatformModel
  import opened Platform3D
  import opened Sequences

  /** One published acquisition: which point, which round at that point (from 1), where the axis was, which axis. */
  datatype SampleRecord = SampleRecord(pointIndex: nat, round: nat, position: int, axis: Axis)

  /** What the experiment itself does, in order: publish a record, or wait. */
  datatype Step = Published(record: SampleRecord) | Paused(ms: int)

  /**
   * How a run ends. `AtMax`, `MoveFailed` and `TokenSeen` return normally;
   * `Canceled` stops the platform and rethrows; `Faulted` is the exception a
   * move with a negative wait throws, which passes through untouched.
   */
  datatype RunEnd = AtMax | MoveFailed | TokenSeen | Canceled | Faulted

  /** The wait after a move, in ms, as the source computes it with truncating division. */
  function SettleDelayMs(moveStep: int): int {
    Div(moveStep * 1000, 500) + 1000
  }

  /** The settle wait is two milliseconds per step plus one second, for every step size. */
  lemma SettleDelayValue(moveStep: int)
    ensures SettleDelayMs(moveStep) == 2 * moveStep + 1000
  {
    if moveStep >= 0 {
      assert moveStep * 1000 == 500 * (2 * moveStep);
    } else {
      assert -(moveStep * 1000) == 500 * (-2 * moveStep);
    }
  }

  /** The acquisitions at one point: the steps so far, the observations made so far, and whether the token stopped them. */
  datatype Acquisition = Acquisition(steps: seq<Step>, seen: nat, canceled: bool)

  function Continue(done: seq<Step>, a: Acquisition): Acquisition {
    Acquisition(done + a.steps, a.seen, a.canceled)
  }

  /**
   * The inner loop from round `round` (0-based) on, `seen` observations
   * into the run: each round checks the token, publishes its record and,
   * unless it is the last, waits `intervalMs`.
   */
  function Samples(point: nat, position: int, axis: Axis, round: nat, count: int, intervalMs: nat,
                   cancelAt: nat, seen: nat): (a: Acquisition)
    ensures a.seen >= seen
    ensures round < count ==> a.seen > seen
    decreases count - round
  {
    if round >= count then Acquisition([], seen, false)
    else if seen >= cancelAt then Acquisition([], seen + 1, true)
    else
      var published := [Published(SampleRecord(point, round + 1, position, axis))];
      if round == count - 1 then Acquisition(published, seen + 1, false)
      else if seen + 1 >= cancelAt then Acquisition(published + [Paused(intervalMs)], seen + 2, true)
      else Continue(published + [Paused(intervalMs)],
                    Samples(point, position, axis, round + 1, count, intervalMs, cancelAt, seen + 2))
  }

  /**
   * What one point should produce when nothing interrupts it, written out
   * directly: records for rounds 1..count at even places, a wait of
   * `intervalMs` at odd places, and nothing after the last record.
   */
  function Schedule(point: nat, position: int, axis: Axis, count: nat, intervalMs: nat): (r: seq<Step>)
    ensures count > 0 ==> |r| == 2 * count - 1
    ensures count == 0 ==> r == []
  {
    if count == 0 then []
    else
      seq(2 * count - 1, k requires 0 <= k < 2 * count - 1 =>
        if k % 2 == 0 then Published(SampleRecord(point, k / 2 + 1, position, axis)) else Paused(intervalMs))
  }

  function Positive(n: int): nat { if n > 0 then n else 0 }

  /** The two places of round `round` in the schedule: its record, then (unless it is the last round) its wait. */
  lemma ScheduleAt(point: nat, position: int, axis: Axis, count: nat, intervalMs: nat, round: nat)
    requires round < count
    ensures var whole := Schedule(point, position, axis, count, intervalMs);
            && whole[2 * round] == Published(SampleRecord(point, round + 1, position, axis))
            && (round < count - 1 ==> whole[2 * round + 1] == Paused(intervalMs))
  {
    assert (2 * round) % 2 == 0 && (2 * round) / 2 == round;
    assert (2 * round + 1) % 2 == 1;
  }

  /** A prefix survives putting the same steps in front. */
  lemma PrefixPrepend(front: seq<Step>, a: seq<Step>, b: seq<Step>)
    requires a <= b
    ensures front + a <= front + b
  {
    assert (front + b)[..|front + a|] == front + a;
  }

  /**
   * Acquisitions `a`, begun `seen` observations in, follow the schedule
   * remainder `full`: they are a prefix of it, all of it unless the token
   * fires, and the token stops them exactly when one of their observations
   * comes at or after `cancelAt`.
   */
  predicate Follows(a: Acquisition, full: seq<Step>, seen: nat, cancelAt: nat) {
    && a.steps <= full
    && (a.canceled <==> seen + |full| > cancelAt)
    && (!a.canceled ==> a.steps == full && a.seen == seen + |full|)
  }

  /** From any round on, the acquisitions follow what is left of the schedule. */
  lemma {:induction false} SamplesFrom(point: nat, position: int, axis: Axis, round: nat, count: int,
                                       intervalMs: nat, cancelAt: nat, seen: nat)
    requires round < count
    ensures Follows(Samples(point, position, axis, round, count, intervalMs, cancelAt, seen),
                    Schedule(point, position, axis, count, intervalMs)[2 * round..], seen, cancelAt)
    decreases count - round
  {
    if seen < cancelAt && round < count - 1 && seen + 1 < cancelAt {
      SamplesFrom(point, position, axis, round + 1, count, intervalMs, cancelAt, seen + 2);
      SamplesFromNext(point, position, axis, round, count, intervalMs, cancelAt, seen);
    } else {
      SamplesFromLast(point, position, axis, round, count, intervalMs, cancelAt, seen);
    }
  }

  /** The rounds where the inner loop stops: the token is seen, or the last record is published. */
  lemma SamplesFromLast(point: nat, position: int, axis: Axis, round: nat, count: int,
                        intervalMs: nat, cancelAt: nat, seen: nat)
    requires round < count
    requires seen >= cancelAt || round == count - 1 || seen + 1 >= cancelAt
    ensures Follows(Samples(point, position, axis, round, count, intervalMs, cancelAt, seen),
                    Schedule(point, position, axis, count, intervalMs)[2 * round..], seen, cancelAt)
  {
    var whole := Schedule(point, position, axis, count, intervalMs);
    var full := whole[2 * round..];
    var a := Samples(point, position, axis, round, count, intervalMs, cancelAt, seen);
    var published := Published(SampleRecord(point, round + 1, position, axis));
    ScheduleAt(point, position, axis, count, intervalMs, round);
    assert |full| == 2 * (count - round) - 1;
    if seen >= cancelAt {
      assert a == Acquisition([], seen + 1, true);
    } else if round == count - 1 {
      assert a == Acquisition([published], seen + 1, false);
      assert full == [published];
    } else {
      assert a == Acquisition([published, Paused(intervalMs)], seen + 2, true);
      assert full[..2] == [published, Paused(intervalMs)];
    }
  }

  /** A round that publishes, waits and goes on follows the schedule if the rounds after it do. */
  lemma SamplesFromNext(point: nat, position: int, axis: Axis, round: nat, count: int,
                        intervalMs: nat, cancelAt: nat, seen: nat)
    requires round < count - 1 && seen + 1 < cancelAt
    requires Follows(Samples(point, position, axis, round + 1, count, intervalMs, cancelAt, seen + 2),
                     Schedule(point, position, axis, count, intervalMs)[2 * (round + 1)..], seen + 2, cancelAt)
    ensures Follows(Samples(point, position, axis, round, count, intervalMs, cancelAt, seen),
                    Schedule(point, position, axis, count, intervalMs)[2 * round..], seen, cancelAt)
  {
    var whole := Schedule(point, position, axis, count, intervalMs);
    var full := whole[2 * round..];
    var tail := whole[2 * (round + 1)..];
    var rest := Samples(point, position, axis, round + 1, count, intervalMs, cancelAt, seen + 2);
    var published := Published(SampleRecord(point, round + 1, position, axis));
    ScheduleAt(point, position, axis, count, intervalMs, round);
    assert Samples(point, position, axis, round, count, intervalMs, cancelAt, seen)
        == Acquisition([published, Paused(intervalMs)] + rest.steps, rest.seen, rest.canceled);
    assert full == [published, Paused(intervalMs)] + tail;
    PrefixPrepend([published, Paused(intervalMs)], rest.steps, tail);
  }

  /**
   * The acquisitions at a point, whole: the schedule for `count` rounds, cut
   * short exactly when the token fires during their `2 * count - 1` observations.
   */
  lemma AcquisitionFollowsSchedule(point: nat, position: int, axis: Axis, count: int, intervalMs: nat,
                                   cancelAt: nat, seen: nat)
    ensures var a := Samples(point, position, axis, 0, count, intervalMs, cancelAt, seen);
            var full := Schedule(point, position, axis, Positive(count), intervalMs);
            && a.steps <= full
            && (a.canceled <==> seen + |full| > cancelAt && count > 0)
            && (!a.canceled ==> a.steps == full && a.seen == seen + |full|)
  {
    if count > 0 {
      SamplesFrom(point, position, axis, 0, count, intervalMs, cancelAt, seen);
    }
  }

  /** Every step of a schedule belongs to its point and axis, with a round from 1 to `count`. */
  lemma ScheduleRecords(point: nat, position: int, axis: Axis, count: nat, intervalMs: nat, steps: seq<Step>)
    requires steps <= Schedule(point, position, axis, count, intervalMs)
    ensures forall st :: st in steps && st.Published? ==>
              st.record.pointIndex == point && 1 <= st.record.round <= count
              && st.record.position == position && st.record.axis == axis
  {
    var full := Schedule(point, position, axis, count, intervalMs);
    forall st | st in steps && st.Published?
      ensures st.record.pointIndex == point && 1 <= st.record.round <= count
      ensures st.record.position == position && st.record.axis == axis
    {
      var k :| 0 <= k < |steps| && steps[k] == st;
      assert full[k] == st;
    }
  }

  /** A whole run, or its remainder: how it ends, the platform state, the last point index, and what it did. */
  datatype Run = Run(end: RunEnd, state: PlatformSavedData, points: nat, steps: seq<Step>, events: seq<PlatformEvent>)

  function Then(steps: seq<Step>, events: seq<PlatformEvent>, r: Run): Run {
    Run(r.end, r.state, r.points, steps + r.steps, events + r.events)
  }

  lemma ThenThen(s1: seq<Step>, e1: seq<PlatformEvent>, s2: seq<Step>, e2: seq<PlatformEvent>, r: Run)
    ensures Then(s1, e1, Then(s2, e2, r)) == Then(s1 + s2, e1 + e2, r)
  {
    AppendAssoc(s1, s2, r.steps);
    AppendAssoc(e1, e2, r.events);
  }

  /** The limit-switch signal, if any, heard during the move after point `p`. */
  function SignalAt(signals: map<nat, BoundarySignal>, p: nat): Option<BoundarySignal> {
    if p in signals then Some(signals[p]) else None
  }

  /** How a pass of the outer loop goes on once its acquisitions are done: the run ends there, or moves on. */
  datatype Progress =
    | Ends(run: Run)
    | Continues(state: PlatformSavedData, steps: seq<Step>, events: seq<PlatformEvent>, seen: nat)

  /**
   * The rest of a pass after the acquisitions `a` at point `p`: a cancelled
   * acquisition stops the platform; otherwise the axis moves forward by
   * `moveStep`, hearing `SignalAt(signals, p)`, and a completed move is
   * followed by the settle wait, which stops the platform when the token is
   * cancelled by then. Steps and events are those after the acquisitions.
   */
  function Advance(s: PlatformSavedData, moving: bool, axis: Axis, moveStep: int, signals: map<nat, BoundarySignal>,
                   cancelAt: nat, p: nat, a: Acquisition): (g: Progress)
    requires s.Complete()
    ensures g.Ends? ==> g.run.points == p && g.run.steps <= [Paused(SettleDelayMs(moveStep))]
    ensures g.Ends? && a.canceled ==> g.run == Run(Canceled, s, p, [], [Stopped])
    ensures g.Continues? ==> !a.canceled && g.seen == a.seen + 2 <= cancelAt && g.state.Complete()
    ensures g.Continues? ==> g.steps == [Paused(SettleDelayMs(moveStep))]
  {
    if a.canceled then Ends(Run(Canceled, s, p, [], [Stopped]))
    else
      var cancelled := a.seen >= cancelAt;
      var outcome := MoveOutcome(s, moving, axis, moveStep, true, cancelled);
      var e := MoveEffect(s, moving, axis, moveStep, true, SignalAt(signals, p), cancelled);
      var settle := [Paused(SettleDelayMs(moveStep))];
      if outcome == MoveResult.Faulted then Ends(Run(RunEnd.Faulted, e.state, p, [], e.events))
      else if outcome != Moved then Ends(Run(MoveFailed, e.state, p, [], e.events))
      else if a.seen + 1 >= cancelAt then Ends(Run(Canceled, e.state, p, settle, e.events + [Stopped]))
      else Continues(e.state, settle, e.events, a.seen + 2)
  }

  /**
   * The outer loop from snapshot `s`, with `seen` observations made and
   * `point` points started. `moving` is the platform's busy flag, which the
   * experiment never changes.
   */
  function Points(s: PlatformSavedData, moving: bool, axis: Axis, moveStep: int, count: int, intervalMs: nat,
                  signals: map<nat, BoundarySignal>, cancelAt: nat, seen: nat, point: nat): (r: Run)
    requires s.Complete()
    ensures r.points >= point
    ensures seen < cancelAt && s.isAtMax[axis] ==> r == Run(AtMax, s, point, [], [])
    decreases cancelAt - seen
  {
    if seen >= cancelAt then Run(TokenSeen, s, point, [], [])
    else if s.isAtMax[axis] then Run(AtMax, s, point, [], [])
    else
      var p := point + 1;
      var a := Samples(p, s.At(axis), axis, 0, count, intervalMs, cancelAt, seen + 1);
      match Advance(s, moving, axis, moveStep, signals, cancelAt, p, a)
      case Ends(r) => Then(a.steps, [], r)
      case Continues(t, steps, events, next) =>
        Then(a.steps + steps, events, Points(t, moving, axis, moveStep, count, intervalMs, signals, cancelAt, next, p))
  }

  /** One pass of the outer loop from a point it does not stop at, unfolded into the acquisitions and `Advance`. */
  lemma PointsStep(s: PlatformSavedData, moving: bool, axis: Axis, moveStep: int, count: int, intervalMs: nat,
                   signals: map<nat, BoundarySignal>, cancelAt: nat, seen: nat, point: nat)
    requires s.Complete() && seen < cancelAt && !s.isAtMax[axis]
    ensures var p := point + 1;
            var a := Samples(p, s.At(axis), axis, 0, count, intervalMs, cancelAt, seen + 1);
            var g := Advance(s, moving, axis, moveStep, signals, cancelAt, p, a);
            Points(s, moving, axis, moveStep, count, intervalMs, signals, cancelAt, seen, point)
            == if g.Ends? then Then(a.steps, [], g.run)
               else Then(a.steps + g.steps, g.events,
                         Points(g.state, moving, axis, moveStep, count, intervalMs, signals, cancelAt, g.seen, p))
  {
  }

  /** A move never stops the platform: only the experiment's own cancellation path does. */
  lemma MoveNeverStops(s: PlatformSavedData, moving: bool, axis: Axis, step: int, signal: Option<BoundarySignal>,
                       cancelled: bool)
    requires s.Complete()
    ensures Stopped !in MoveEffect(s, moving, axis, step, true, signal, cancelled).events
  {
    var e := MoveEffect(s, moving, axis, step, true, signal, cancelled);
    if MoveOutcome(s, moving, axis, step, true, cancelled) != Refused && CalculateMoveDelay(step) >= 0 {
      var heard := Signalled(s, signal);
      assert Stopped !in heard.events;
    }
  }

  /** The platform is stopped exactly when the run ends by cancellation, and then as the last thing done to it. */
  predicate StopsAtCancel(r: Run) {
    && (r.end == Canceled <==> Stopped in r.events)
    && (r.end == Canceled ==> |r.events| > 0 && r.events[|r.events| - 1] == Stopped)
  }

  lemma StopsAtCancelThen(steps: seq<Step>, moved: seq<PlatformEvent>, r: Run)
    requires Stopped !in moved && StopsAtCancel(r)
    ensures StopsAtCancel(Then(steps, moved, r))
  {
    if r.end == Canceled {
      assert (moved + r.events)[|moved + r.events| - 1] == r.events[|r.events| - 1];
    }
  }

  /** After the acquisitions, a pass stops the platform exactly when it ends the run by cancellation. */
  lemma AdvanceStops(s: PlatformSavedData, moving: bool, axis: Axis, moveStep: int, signals: map<nat, BoundarySignal>,
                     cancelAt: nat, p: nat, a: Acquisition)
    requires s.Complete()
    ensures var g := Advance(s, moving, axis, moveStep, signals, cancelAt, p, a);
            && (g.Ends? ==> StopsAtCancel(g.run))
            && (g.Continues? ==> Stopped !in g.events)
  {
    if !a.canceled {
      var cancelled := a.seen >= cancelAt;
      var e := MoveEffect(s, moving, axis, moveStep, true, SignalAt(signals, p), cancelled);
      MoveNeverStops(s, moving, axis, moveStep, SignalAt(signals, p), cancelled);
      assert (e.events + [Stopped])[|e.events|] == Stopped;
    }
  }

  /** Every run stops the platform exactly when it ends by cancellation, and as its last platform action. */
  lemma {:induction false} StopsOnlyWhenCanceled(s: PlatformSavedData, moving: bool, axis: Axis, moveStep: int,
                                                 count: int, intervalMs: nat, signals: map<nat, BoundarySignal>,
                                                 cancelAt: nat, seen: nat, point: nat)
    requires s.Complete()
    ensures StopsAtCancel(Points(s, moving, axis, moveStep, count, intervalMs, signals, cancelAt, seen, point))
    decreases cancelAt - seen
  {
    if seen < cancelAt && !s.isAtMax[axis] {
      var p := point + 1;
      var a := Samples(p, s.At(axis), axis, 0, count, intervalMs, cancelAt, seen + 1);
      var g := Advance(s, moving, axis, moveStep, signals, cancelAt, p, a);
      PointsStep(s, moving, axis, moveStep, count, intervalMs, signals, cancelAt, seen, point);
      AdvanceStops(s, moving, axis, moveStep, signals, cancelAt, p, a);
      if g.Ends? {
        StopsAtCancelThen(a.steps, [], g.run);
      } else {
        StopsOnlyWhenCanceled(g.state, moving, axis, moveStep, count, intervalMs, signals, cancelAt, g.seen, p);
        StopsAtCancelThen(a.steps + g.steps, g.events,
                          Points(g.state, moving, axis, moveStep, count, intervalMs, signals, cancelAt, g.seen, p));
      }
    }
  }

  /** Every record among `steps` belongs to a point in `lo + 1 .. hi`, a round in `1 .. count`, and `axis`. */
  predicate RecordsWithin(steps: seq<Step>, lo: nat, hi: nat, count: int, axis: Axis) {
    forall st :: st in steps && st.Published? ==>
      lo < st.record.pointIndex <= hi && 1 <= st.record.round <= count && st.record.axis == axis
  }

  lemma RecordsWithinThen(steps: seq<Step>, moved: seq<PlatformEvent>, r: Run, lo: nat, mid: nat, count: int, axis: Axis)
    requires lo <= mid <= r.points
    requires RecordsWithin(steps, lo, mid, count, axis) && RecordsWithin(r.steps, mid, r.points, count, axis)
    ensures RecordsWithin(Then(steps, moved, r).steps, lo, r.points, count, axis)
  {
  }

  /**
   * Every record a run publishes belongs to a point it started: the point
   * index lies in `point + 1 .. r.points`, the round in `1 .. count`, and
   * the axis is the experiment's.
   */
  lemma {:induction false} RecordsInRange(s: PlatformSavedData, moving: bool, axis: Axis, moveStep: int,
                                          count: int, intervalMs: nat, signals: map<nat, BoundarySignal>,
                                          cancelAt: nat, seen: nat, point: nat)
    requires s.Complete()
    ensures var r := Points(s, moving, axis, moveStep, count, intervalMs, signals, cancelAt, seen, point);
            RecordsWithin(r.steps, point, r.points, count, axis)
    decreases cancelAt - seen
  {
    if seen < cancelAt && !s.isAtMax[axis] {
      var p := point + 1;
      var a := Samples(p, s.At(axis), axis, 0, count, intervalMs, cancelAt, seen + 1);
      var g := Advance(s, moving, axis, moveStep, signals, cancelAt, p, a);
      PointsStep(s, moving, axis, moveStep, count, intervalMs, signals, cancelAt, seen, point);
      AcquisitionFollowsSchedule(p, s.At(axis), axis, count, intervalMs, cancelAt, seen + 1);
      ScheduleRecords(p, s.At(axis), axis, Positive(count), intervalMs, a.steps);
      assert RecordsWithin(a.steps, point, p, count, axis);
      if g.Ends? {
        assert RecordsWithin(g.run.steps, p, p, count, axis);
        RecordsWithinThen(a.steps, [], g.run, point, p, count, axis);
      } else {
        var rest := Points(g.state, moving, axis, moveStep, count, intervalMs, signals, cancelAt, g.seen, p);
        RecordsInRange(g.state, moving, axis, moveStep, count, intervalMs, signals, cancelAt, g.seen, p);
        assert RecordsWithin(a.steps + g.steps, point, p, count, axis);
        RecordsWithinThen(a.steps + g.steps, g.events, rest, point, p, count, axis);
      }
    }
  }

  /**
   * A point whose move hears the max switch is the last point: the switch
   * flag survives the booking of the forward move, so the next pass of the
   * loop stops at the boundary check if not earlier.
   */
  lemma MaxSwitchEndsRun(s: PlatformSavedData, moving: bool, axis: Axis, moveStep: int, count: int,
                         intervalMs: nat, signals: map<nat, BoundarySignal>, cancelAt: nat, seen: nat, point: nat)
    requires s.Complete()
    requires point + 1 in signals && signals[point + 1] == BoundarySignal(axis, false)
    ensures Points(s, moving, axis, moveStep, count, intervalMs, signals, cancelAt, seen, point).points <= point + 1
  {
    if seen < cancelAt && !s.isAtMax[axis] {
      var p := point + 1;
      var a := Samples(p, s.At(axis), axis, 0, count, intervalMs, cancelAt, seen + 1);
      var g := Advance(s, moving, axis, moveStep, signals, cancelAt, p, a);
      PointsStep(s, moving, axis, moveStep, count, intervalMs, signals, cancelAt, seen, point);
      if g.Continues? {
        var e := MoveEffect(s, moving, axis, moveStep, true, SignalAt(signals, p), a.seen >= cancelAt);
        assert g.state == e.state;
        assert e.state.isAtMax[axis];
      }
    }
  }

  /** One round of the acquisition loop, unfolded. */
  lemma SamplesStep(point: nat, position: int, axis: Axis, round: nat, count: int, intervalMs: nat,
                    cancelAt: nat, seen: nat)
    requires round < count && seen < cancelAt
    ensures var published := Published(SampleRecord(point, round + 1, position, axis));
            Samples(point, position, axis, round, count, intervalMs, cancelAt, seen)
            == if round == count - 1 then Acquisition([published], seen + 1, false)
               else if seen + 1 >= cancelAt then Acquisition([published, Paused(intervalMs)], seen + 2, true)
               else Continue([published, Paused(intervalMs)],
                             Samples(point, position, axis, round + 1, count, intervalMs, cancelAt, seen + 2))
  {
    var published := Published(SampleRecord(point, round + 1, position, axis));
    assert [published] + [Paused(intervalMs)] == [published, Paused(intervalMs)];
  }

  /** Bookkeeping for a pass that ends the run: what was done before it, then its acquisitions, then the rest of it. */
  lemma PassEnds(whole: Run, steps: seq<Step>, events: seq<PlatformEvent>, acquired: seq<Step>, r: Run,
                 trace0: seq<Step>, log0: seq<PlatformEvent>, trace: seq<Step>, log: seq<PlatformEvent>)
    requires whole == Then(steps, events, Then(acquired, [], r))
    requires trace == trace0 + steps + acquired + r.steps && log == log0 + events + r.events
    ensures whole.end == r.end && whole.state == r.state && whole.points == r.points
    ensures trace == trace0 + whole.steps && log == log0 + whole.events
  {
    ThenThen(steps, events, acquired, [], r);
    assert events + [] == events;
    AppendAssoc(trace0, steps, acquired);
    AppendAssoc(trace0, steps + acquired, r.steps);
    AppendAssoc(log0, events, r.events);
  }

  /** Bookkeeping for a pass after which the loop goes on. */
  lemma PassContinues(whole: Run, steps: seq<Step>, events: seq<PlatformEvent>, acquired: seq<Step>, more: seq<Step>,
                      moved: seq<PlatformEvent>, rest: Run, trace0: seq<Step>, log0: seq<PlatformEvent>,
                      trace: seq<Step>, log: seq<PlatformEvent>)
    requires whole == Then(steps, events, Then(acquired + more, moved, rest))
    requires trace == trace0 + steps + acquired + more && log == log0 + events + moved
    ensures whole == Then(steps + (acquired + more), events + moved, rest)
    ensures trace == trace0 + (steps + (acquired + more)) && log == log0 + (events + moved)
  {
    ThenThen(steps, events, acquired + more, moved, rest);
    AppendAssoc(trace0, steps, acquired);
    AppendAssoc(trace0 + steps, acquired, more);
    AppendAssoc(trace0, steps, acquired + more);
    AppendAssoc(log0, events, moved);
  }

  class SpatialExperiment {
    const platform: Platform3DService
    var currentPointIndex: int
    /** Everything the experiment published or waited for, in order. */
    ghost var trace: seq<Step>

    constructor(platform: Platform3DService)
      ensures this.platform == platform && currentPointIndex == 0 && trace == []
    {
      this.platform := platform;
      currentPointIndex := 0;
      trace := [];
    }

    /** The run is `seen` observations in and has done `steps` and `events` so far; `whole` is the rest of it prefixed by those. */
    ghost predicate Midway(whole: Run, steps: seq<Step>, events: seq<PlatformEvent>, seen: nat,
                           trace0: seq<Step>, log0: seq<PlatformEvent>, m0: bool, axis: Axis, moveStep: int,
                           count: int, intervalMs: nat, signals: map<nat, BoundarySignal>, cancelAt: nat)
      reads this, platform, platform.position, platform.status
    {
      && platform.Valid() && currentPointIndex >= 0
      && whole == Then(steps, events, Points(platform.State(), m0, axis, moveStep, count,
                                             intervalMs, signals, cancelAt, seen, currentPointIndex))
      && trace == trace0 + steps && platform.log == log0 + events
      && platform.status.isMoving == m0
    }

    /** The run has ended as `whole` says: its end, state, point count, trace, platform log and busy flag. */
    ghost predicate Reached(whole: Run, end: RunEnd, trace0: seq<Step>, log0: seq<PlatformEvent>, m0: bool)
      reads this, platform, platform.position, platform.status
    {
      && end == whole.end && platform.State() == whole.state && currentPointIndex == whole.points
      && trace == trace0 + whole.steps && platform.log == log0 + whole.events
      && platform.status.isMoving == (m0 && end != Canceled)
    }

    /**
     * Runs the experiment along `axis`. `signals[p]`, if present, is the
     * limit-switch signal heard during the move after point `p`; `cancelAt`
     * numbers the first token observation that sees it cancelled.
     */
    method RunAsync(axis: Axis, moveStep: int, acquisitionCount: int, intervalMs: nat,
                    signals: map<nat, BoundarySignal>, cancelAt: nat) returns (end: RunEnd)
      requires platform.Valid()
      modifies this, platform, platform.position, platform.status
      ensures platform.Valid()
      ensures var r := Points(old(platform.State()), old(platform.status.isMoving), axis, moveStep,
                              acquisitionCount, intervalMs, signals, cancelAt, 0, 0);
              && end == r.end && platform.State() == r.state && currentPointIndex == r.points
              && trace == old(trace) + r.steps && platform.log == old(platform.log) + r.events
      ensures platform.status.isMoving == (old(platform.status.isMoving) && end != Canceled)
      ensures platform.status.isHomed == old(platform.status.isHomed)
    {
      currentPointIndex := 0;
      ghost var m0, h0, trace0, log0 := platform.status.isMoving, platform.status.isHomed, trace, platform.log;
      ghost var whole := Points(platform.State(), m0, axis, moveStep, acquisitionCount, intervalMs,
                                signals, cancelAt, 0, 0);
      ghost var steps: seq<Step>, events: seq<PlatformEvent> := [], [];
      var seen: nat := 0;
      assert whole == Then(steps, events, whole);
      while true
        invariant Midway(whole, steps, events, seen, trace0, log0, m0, axis, moveStep, acquisitionCount,
                         intervalMs, signals, cancelAt)
        invariant platform.status.isHomed == h0
        decreases cancelAt - seen
      {
        if seen >= cancelAt {
          assert steps + [] == steps && events + [] == events;
          return TokenSeen;
        }
        var finished;
        finished, seen, steps, events := VisitPoint(axis, moveStep, acquisitionCount, intervalMs, signals,
                                                     cancelAt, seen, whole, steps, events, m0, h0, trace0, log0);
        if finished.Some? {
          return finished.value;
        }
      }
    }

    /** One pass of the outer loop, from the boundary check to the settle wait. */
    method VisitPoint(axis: Axis, moveStep: int, count: int, intervalMs: nat, signals: map<nat, BoundarySignal>,
                      cancelAt: nat, seen: nat, ghost whole: Run, ghost steps: seq<Step>,
                      ghost events: seq<PlatformEvent>, ghost m0: bool, ghost h0: bool,
                      ghost trace0: seq<Step>, ghost log0: seq<PlatformEvent>)
      returns (finished: Option<RunEnd>, seen': nat, ghost steps': seq<Step>, ghost events': seq<PlatformEvent>)
      requires seen < cancelAt && platform.status.isHomed == h0
      requires Midway(whole, steps, events, seen, trace0, log0, m0, axis, moveStep, count, intervalMs, signals, cancelAt)
      modifies this, platform, platform.position, platform.status
      ensures platform.Valid()
      ensures finished.None? ==> seen < seen' <= cancelAt
      ensures finished.None? ==> Midway(whole, steps', events', seen', trace0, log0, m0, axis, moveStep, count,
                                        intervalMs, signals, cancelAt)
      ensures finished.Some? ==> Reached(whole, finished.value, trace0, log0, m0)
      ensures platform.status.isHomed == h0
    {
      ghost var s := platform.State();
      ghost var point: nat := currentPointIndex;
      if platform.status.isAtMax[axis] {
        assert steps + [] == steps && events + [] == events;
        return Some(AtMax), seen, steps, events;
      }
      currentPointIndex := currentPointIndex + 1;
      ghost var p: nat := currentPointIndex;
      var position := platform.position.Get(axis);
      assert position == s.At(axis);
      var canceled, observed := AcquirePoint(currentPointIndex, position, axis, count, intervalMs, cancelAt, seen + 1);
      ghost var a := Samples(p, s.At(axis), axis, 0, count, intervalMs, cancelAt, seen + 1);
      ghost var g := Advance(s, m0, axis, moveStep, signals, cancelAt, p, a);
      PointsStep(s, m0, axis, moveStep, count, intervalMs, signals, cancelAt, seen, point);
      finished, seen' := FinishPoint(axis, moveStep, signals, cancelAt, canceled, observed, s, p, a);
      if finished.Some? {
        PassEnds(whole, steps, events, a.steps, g.run, trace0, log0, trace, platform.log);
        return finished, seen', steps, events;
      }
      ghost var rest := Points(g.state, m0, axis, moveStep, count, intervalMs, signals, cancelAt, g.seen, p);
      PassContinues(whole, steps, events, a.steps, g.steps, g.events, rest, trace0, log0, trace, platform.log);
      steps', events' := steps + (a.steps + g.steps), events + g.events;
    }

    /** The rest of a pass once the acquisitions `a` at point `p` are done, as `Advance` describes it. */
    method FinishPoint(axis: Axis, moveStep: int, signals: map<nat, BoundarySignal>, cancelAt: nat,
                       canceled: bool, seen: nat, ghost s: PlatformSavedData, ghost p: nat, ghost a: Acquisition)
      returns (finished: Option<RunEnd>, seen': nat)
      requires platform.Valid() && platform.State() == s && s.Complete() && currentPointIndex == p
      requires canceled == a.canceled && seen == a.seen
      modifies this`trace, platform, platform.position, platform.status
      ensures platform.Valid() && platform.status.isHomed == old(platform.status.isHomed)
      ensures var g := Advance(s, old(platform.status.isMoving), axis, moveStep, signals, cancelAt, p, a);
              g.Ends? ==> && finished == Some(g.run.end) && platform.State() == g.run.state
                          && trace == old(trace) + g.run.steps && platform.log == old(platform.log) + g.run.events
                          && platform.status.isMoving == (old(platform.status.isMoving) && g.run.end != Canceled)
      ensures var g := Advance(s, old(platform.status.isMoving), axis, moveStep, signals, cancelAt, p, a);
              g.Continues? ==> && finished.None? && seen' == g.seen && platform.State() == g.state
                               && trace == old(trace) + g.steps && platform.log == old(platform.log) + g.events
                               && platform.status.isMoving == old(platform.status.isMoving)
    {
      if canceled {
        platform.StopAll();
        assert trace == old(trace) + [];
        return Some(Canceled), seen;
      }
      ghost var m := platform.status.isMoving;
      ghost var e := MoveEffect(s, m, axis, moveStep, true, SignalAt(signals, p), seen >= cancelAt);
      var result := platform.MoveAxisAsync(axis, moveStep, true, SignalAt(signals, currentPointIndex), seen >= cancelAt);
      if result == MoveResult.Faulted {
        assert trace == old(trace) + [];
        return Some(RunEnd.Faulted), seen;
      }
      if !result.Succeeded() {
        assert trace == old(trace) + [];
        return Some(MoveFailed), seen;
      }
      var stopped := Settle(moveStep, seen + 1 >= cancelAt);
      if stopped {
        AppendAssoc(old(platform.log), e.events, [Stopped]);
        return Some(Canceled), seen;
      }
      assert platform.log == old(platform.log) + e.events;
      return None, seen + 2;
    }

    /** The settle wait after a completed move; a wait the token cuts short throws, which stops the platform. */
    method Settle(moveStep: int, cancelled: bool) returns (canceled: bool)
      requires platform.Valid()
      modifies this`trace, platform`log, platform.status
      ensures canceled == cancelled
      ensures trace == old(trace) + [Paused(SettleDelayMs(moveStep))]
      ensures platform.Valid() && platform.State() == old(platform.State())
      ensures platform.status.isHomed == old(platform.status.isHomed)
      ensures platform.log == old(platform.log) + if cancelled then [Stopped] else []
      ensures platform.status.isMoving == (old(platform.status.isMoving) && !cancelled)
    {
      var settleDelay := Div(moveStep * 1000, 500) + 1000;
      trace := trace + [Paused(settleDelay)];
      if cancelled {
        platform.StopAll();
        assert platform.status.isAtMin == old(platform.status.isAtMin);
        assert platform.status.isAtMax == old(platform.status.isAtMax);
      }
      canceled := cancelled;
    }

    /** The acquisition loop at one point: `count` rounds of check, publish and, between rounds, wait. */
    method AcquirePoint(point: nat, position: int, axis: Axis, count: int, intervalMs: nat, cancelAt: nat, seen: nat)
      returns (canceled: bool, seen': nat)
      modifies this`trace
      ensures var a := Samples(point, position, axis, 0, count, intervalMs, cancelAt, seen);
              trace == old(trace) + a.steps && canceled == a.canceled && seen' == a.seen
    {
      ghost var whole := Samples(point, position, axis, 0, count, intervalMs, cancelAt, seen);
      ghost var done: seq<Step> := [];
      seen' := seen;
      var i: nat := 0;
      assert whole == Continue(done, whole);
      while i < count
        invariant whole == Continue(done, Samples(point, position, axis, i, count, intervalMs, cancelAt, seen'))
        invariant trace == old(trace) + done
        decreases count - i
      {
        ghost var rest := Samples(point, position, axis, i, count, intervalMs, cancelAt, seen');
        if seen' >= cancelAt {
          assert rest == Acquisition([], seen' + 1, true);
          assert done + [] == done;
          return true, seen' + 1;
        }
        SamplesStep(point, position, axis, i, count, intervalMs, cancelAt, seen');
        var record := SampleRecord(point, i + 1, position, axis);
        seen' := seen' + 1;
        trace := trace + [Published(record)];
        if i < count - 1 {
          trace := trace + [Paused(intervalMs)];
          assert trace == old(trace) + (done + [Published(record), Paused(intervalMs)]);
          if seen' >= cancelAt {
            return true, seen' + 1;
          }
          seen' := seen' + 1;
          ghost var next := Samples(point, position, axis, i + 1, count, intervalMs, cancelAt, seen');
          assert rest == Continue([Published(record), Paused(intervalMs)], next);
          AppendAssoc(done, [Published(record), Paused(intervalMs)], next.steps);
          done := done + [Published(record), Paused(intervalMs)];
        } else {
          assert rest == Acquisition([Published(record)], seen', false);
          done := done + [Published(record)];
          assert done + [] == done;
        }
        i := i + 1;
      }
      assert done + [] == done;
      canceled := false;
    }
  }
}
