/**
 * The motion controller of the three-axis platform. It owns the position and
 * status records, refuses moves that the boundary flags or the Z floor forbid,
 * sends one move command per accepted move, waits an estimate of the travel
 * time and then books the displacement, and reacts to the limit switches
 * reported in byte 6 of an 8-byte platform frame. The serial link, the saved
 * position file and the waits are recorded in ghost logs.
 */
module Platform3D {
  import opened CSharp
  import opened Wrappers
  import opened Commands
  import opened PlatformModel

  /** The persisted record: the three coordinates and both boundary tables. */
  datatype PlatformSavedData = PlatformSavedData(
    x: int, y: int, z: int,
    isAtMin: map<Axis, bool>, isAtMax: map<Axis, bool>)
  {
    /** Both tables hold every axis. */
    predicate Complete() {
      Covers(isAtMin) && Covers(isAtMax)
    }

    /** The coordinate of one axis, as the position indexer reads it. */
    function At(axis: Axis): int {
      match axis
      case X => x
      case Y => y
      case Z => z
    }

    /** The same record with one coordinate replaced. */
    function WithAt(axis: Axis, v: int): PlatformSavedData {
      match axis
      case X => this.(x := v)
      case Y => this.(y := v)
      case Z => this.(z := v)
    }

    /** No axis is flagged as sitting on both of its switches at once. */
    predicate BoundaryConsistent() {
      forall a: Axis :: !(a in isAtMin && a in isAtMax && isAtMin[a] && isAtMax[a])
    }
  }

  /** The state of a freshly constructed service: at the origin, no flag set. */
  const Fresh: PlatformSavedData := PlatformSavedData(0, 0, 0, AllClear, AllClear)

  /** The hard travel of each axis in steps. */
  function GetMaxStep(axis: Axis): (r: int)
    ensures 0 < r < MaxValidStep
  {
    match axis
    case X => MaxStepX
    case Y => MaxStepY
    case Z => MaxStepZ
  }

  /**
   * The wait for a move, `(step / 500) * 1000 + 500` ms with C# truncating
   * division: about one second per 500 steps plus half a second of margin.
   * It is negative, so that the wait itself fails, exactly when step <= -500.
   */
  function CalculateMoveDelay(step: int): (r: int)
    ensures r % 1000 == 500
    ensures r < 0 <==> step <= -500
    ensures step >= 0 ==> 2 * step - 500 < r <= 2 * step + 500
  {
    Div(step, 500) * 1000 + 500
  }

  /** The pre-move safety gate over a snapshot of the state. */
  function CheckSafety(s: PlatformSavedData, axis: Axis, step: int, isPositive: bool): bool
    requires s.Complete()
  {
    if s.isAtMin[axis] && !isPositive then false
    else if s.isAtMax[axis] && isPositive then false
    else if axis == Z && !isPositive && s.z - step < ZAxisMinLimit then false
    else true
  }

  /** The booking of a completed move: the displacement, and the opposite switch flag cleared. */
  function AfterMove(s: PlatformSavedData, axis: Axis, step: int, isPositive: bool): PlatformSavedData {
    var delta := if isPositive then step else -step;
    var t := s.WithAt(axis, s.At(axis) + delta);
    if isPositive then t.(isAtMin := s.isAtMin[axis := false])
    else t.(isAtMax := s.isAtMax[axis := false])
  }

  /** A limit switch fired: the axis is at 0 or at its travel, and its flags say which. */
  function AfterBoundary(s: PlatformSavedData, axis: Axis, isZero: bool): PlatformSavedData {
    s.WithAt(axis, if isZero then 0 else GetMaxStep(axis))
     .(isAtMin := s.isAtMin[axis := isZero], isAtMax := s.isAtMax[axis := !isZero])
  }

  /**
   * How a move request ends. `Refused`: the safety gate or the busy flag
   * rejected it. `Faulted`: the wait was negative and threw. `Cancelled`: the
   * token fired before the wait ended. Only `Moved` returns true.
   */
  datatype MoveResult = Moved | Refused | Cancelled | Faulted
  {
    function Succeeded(): bool { this == Moved }
  }

  function MoveOutcome(s: PlatformSavedData, moving: bool, axis: Axis, step: int, isPositive: bool, cancelled: bool): MoveResult
    requires s.Complete()
  {
    if !CheckSafety(s, axis, step, isPositive) || moving then Refused
    else if CalculateMoveDelay(step) < 0 then Faulted
    else if cancelled then Cancelled
    else Moved
  }

  /** A limit-switch report: which axis stopped, and whether at zero or at maximum. */
  datatype BoundarySignal = BoundarySignal(axis: Axis, isZero: bool)
  {
    /** The byte-6 code: 0xA1 / 0xA3 for X, 0xB1 / 0xB3 for Y, 0xC1 / 0xC3 for Z (low digit 1 = zero, 3 = max). */
    function Code(): byte {
      var high := match axis case X => 0xA0 case Y => 0xB0 case Z => 0xC0;
      high + (if isZero then 1 else 3)
    }
  }

  /** Decodes byte 6 of a platform frame; every other value is no signal. */
  function SignalOf(b: byte): (r: Option<BoundarySignal>)
    ensures r.Some? ==> r.value.Code() == b
    ensures forall g: BoundarySignal :: g.Code() == b ==> r == Some(g)
  {
    if b == 0xA1 then Some(BoundarySignal(X, true))
    else if b == 0xA3 then Some(BoundarySignal(X, false))
    else if b == 0xB1 then Some(BoundarySignal(Y, true))
    else if b == 0xB3 then Some(BoundarySignal(Y, false))
    else if b == 0xC1 then Some(BoundarySignal(Z, true))
    else if b == 0xC3 then Some(BoundarySignal(Z, false))
    else None
  }


  /** What the service does to the world outside its own fields, in order. */
  datatype PlatformEvent =
    | SentMove(axis: Axis, isPositive: bool, step: int)
    | Waited(ms: int)
    | Saved(snapshot: PlatformSavedData)
    | Stopped
  {
    /** The bytes a `SentMove` puts on the serial link. */
    function Wire(crc: CrcFn): (r: seq<byte>)
      requires SentMove?
      ensures SealedFrame(crc, r) && Payload(r)[0] == axis.Code()
    {
      CreatePlatformMove(crc, axis.Code(), isPositive, step)
    }
  }

  /** The persisted state after an operation, and the events it produced. */
  datatype Effect = Effect(state: PlatformSavedData, events: seq<PlatformEvent>)

  /** A limit-switch signal, if any, applied as `HandleBoundarySignal` does: the axis moves to that switch and the state is saved. */
  function Signalled(s: PlatformSavedData, signal: Option<BoundarySignal>): (e: Effect)
    ensures s.Complete() ==> e.state.Complete()
  {
    if signal.Some? then
      var t := AfterBoundary(s, signal.value.axis, signal.value.isZero);
      Effect(t, [Saved(t)])
    else Effect(s, [])
  }

  /** The signal a platform frame carries: none when it is shorter than 8 bytes or byte 6 is not a known code. */
  function FrameSignal(raw: seq<byte>): Option<BoundarySignal> {
    if |raw| < 8 then None else SignalOf(raw[6])
  }

  /** Handling a platform frame: a known limit-switch code in byte 6 moves the axis to that switch and saves. */
  function Respond(s: PlatformSavedData, raw: seq<byte>): (e: Effect)
    ensures s.Complete() ==> e.state.Complete()
  {
    Signalled(s, FrameSignal(raw))
  }

  /**
   * A move once the busy flag is taken: the command is sent first; unless the
   * wait is negative (and throws), the move may hear one limit-switch signal
   * (`signal`, decoded from a platform frame) while it waits, and only an
   * uncancelled wait books the move and saves.
   */
  function Travel(s: PlatformSavedData, axis: Axis, step: int, isPositive: bool,
                  signal: Option<BoundarySignal>, cancelled: bool): (e: Effect)
    requires s.Complete()
    ensures e.state.Complete()
  {
    var command := [SentMove(axis, isPositive, step)];
    var delay := CalculateMoveDelay(step);
    if delay < 0 then Effect(s, command)
    else
      var heard := Signalled(s, signal);
      var waited := command + [Waited(delay)] + heard.events;
      if cancelled then Effect(heard.state, waited)
      else
        var t := AfterMove(heard.state, axis, step, isPositive);
        Effect(t, waited + [Saved(t)])
  }

  /** One move request from snapshot `s`: a refused move does nothing at all. */
  function MoveEffect(s: PlatformSavedData, moving: bool, axis: Axis, step: int, isPositive: bool,
                      signal: Option<BoundarySignal>, cancelled: bool): (e: Effect)
    requires s.Complete()
    ensures e.state.Complete()
  {
    if MoveOutcome(s, moving, axis, step, isPositive, cancelled) == Refused then Effect(s, [])
    else Travel(s, axis, step, isPositive, signal, cancelled)
  }

  /** Two snapshots that differ at most in one coordinate. */
  lemma WithAtExtensional(s: PlatformSavedData, t: PlatformSavedData, axis: Axis)
    requires t.isAtMin == s.isAtMin && t.isAtMax == s.isAtMax
    requires axis != X ==> t.x == s.x
    requires axis != Y ==> t.y == s.y
    requires axis != Z ==> t.z == s.z
    ensures t == s.WithAt(axis, t.At(axis))
  {
    match axis
    case X =>
    case Y =>
    case Z =>
  }

  /** Copying one more key of `src` over `m0`. */
  lemma OverlayStep(m0: map<Axis, bool>, src: map<Axis, bool>, keys: set<Axis>, a: Axis)
    requires a in keys && keys <= src.Keys
    ensures (m0 + (src - keys))[a := src[a]] == m0 + (src - (keys - {a}))
  {
  }

  /** Overlaying a table that covers every axis leaves just that table. */
  lemma OverlayCovering(m0: map<Axis, bool>, src: map<Axis, bool>)
    requires Covers(src)
    ensures m0 + src == src
  {
  }

  /**
   * The safety gate, per direction: a positive move needs the max flag clear;
   * a negative move needs the min flag clear and, on Z, must not end below the floor.
   */
  lemma CheckSafetyCharacterised(s: PlatformSavedData, axis: Axis, step: int, isPositive: bool)
    requires s.Complete()
    ensures CheckSafety(s, axis, step, isPositive)
        <==> if isPositive then !s.isAtMax[axis]
             else !s.isAtMin[axis] && (axis == Z ==> s.z - step >= ZAxisMinLimit)
  {
  }

  /** A negative Z move the gate accepts cannot take the probe below the floor. */
  lemma SafeMoveKeepsZFloor(s: PlatformSavedData, step: int)
    requires s.Complete() && CheckSafety(s, Z, step, false)
    ensures AfterMove(s, Z, step, false).z >= ZAxisMinLimit
  {
  }

  /** Booking a move changes the moved axis by the signed step and clears only the switch it moved away from. */
  lemma AfterMoveEffect(s: PlatformSavedData, axis: Axis, step: int, isPositive: bool)
    ensures var t := AfterMove(s, axis, step, isPositive);
            && t.At(axis) == s.At(axis) + (if isPositive then step else -step)
            && (forall a: Axis :: a != axis ==> t.At(a) == s.At(a))
            && t.isAtMin == (if isPositive then s.isAtMin[axis := false] else s.isAtMin)
            && t.isAtMax == (if isPositive then s.isAtMax else s.isAtMax[axis := false])
  {
    var t := AfterMove(s, axis, step, isPositive);
    forall a: Axis | a != axis
      ensures t.At(a) == s.At(a)
    {
      match axis
      case X =>
      case Y =>
      case Z =>
    }
  }

  /** A move followed by the opposite move of the same size returns the axis to where it was. */
  lemma MoveThenReverse(s: PlatformSavedData, axis: Axis, step: int, isPositive: bool)
    ensures AfterMove(AfterMove(s, axis, step, isPositive), axis, step, !isPositive).At(axis) == s.At(axis)
  {
    AfterMoveEffect(s, axis, step, isPositive);
    AfterMoveEffect(AfterMove(s, axis, step, isPositive), axis, step, !isPositive);
  }

  /** Nothing clamps a coordinate to the axis travel: X can be booked past 15500. */
  lemma PositionsNotClamped()
    ensures var s := Fresh.(x := MaxStepX);
            && s.Complete()
            && CheckSafety(s, X, 100, true)
            && AfterMove(s, X, 100, true).x == MaxStepX + 100
  {
    AllClearCovers();
  }

  /** A limit switch puts the axis at 0 or at its travel, sets the matching flag and clears the other. */
  lemma AfterBoundaryEffect(s: PlatformSavedData, axis: Axis, isZero: bool)
    ensures var t := AfterBoundary(s, axis, isZero);
            && t.At(axis) == (if isZero then 0 else GetMaxStep(axis))
            && (forall a: Axis :: a != axis ==> t.At(a) == s.At(a))
            && t.isAtMin[axis] == isZero && t.isAtMax[axis] == !isZero
            && (forall a: Axis :: a != axis && a in s.isAtMin ==> a in t.isAtMin && t.isAtMin[a] == s.isAtMin[a])
            && (forall a: Axis :: a != axis && a in s.isAtMax ==> a in t.isAtMax && t.isAtMax[a] == s.isAtMax[a])
  {
    var t := AfterBoundary(s, axis, isZero);
    forall a: Axis | a != axis
      ensures t.At(a) == s.At(a)
    {
      match axis
      case X =>
      case Y =>
      case Z =>
    }
  }

  /** Receiving the same limit-switch report twice is the same as receiving it once. */
  lemma BoundarySignalIdempotent(s: PlatformSavedData, axis: Axis, isZero: bool)
    ensures AfterBoundary(AfterBoundary(s, axis, isZero), axis, isZero) == AfterBoundary(s, axis, isZero)
  {
    match axis
    case X =>
    case Y =>
    case Z =>
  }

  /** An operation the service can receive, in a sequential run. */
  datatype Op =
    | Move(axis: Axis, step: int, isPositive: bool, signal: Option<BoundarySignal>, cancelled: bool)
    | Response(raw: seq<byte>)
    | Stop

  /** The effect of one operation on the persisted state, with no other move in flight. */
  function Apply(s: PlatformSavedData, op: Op): (t: PlatformSavedData)
    requires s.Complete()
    ensures t.Complete()
  {
    match op
    case Move(axis, step, isPositive, signal, cancelled) =>
      MoveEffect(s, false, axis, step, isPositive, signal, cancelled).state
    case Response(raw) => Respond(s, raw).state
    case Stop => s
  }

  function Run(s: PlatformSavedData, ops: seq<Op>): (t: PlatformSavedData)
    requires s.Complete()
    ensures t.Complete()
    decreases |ops|
  {
    if ops == [] then s else Run(Apply(s, ops[0]), ops[1..])
  }

  lemma SignalledKeepsBoundaryConsistent(s: PlatformSavedData, signal: Option<BoundarySignal>)
    requires s.BoundaryConsistent()
    ensures Signalled(s, signal).state.BoundaryConsistent()
  {
    if signal.Some? {
      AfterBoundaryEffect(s, signal.value.axis, signal.value.isZero);
    }
  }

  lemma ApplyKeepsBoundaryConsistent(s: PlatformSavedData, op: Op)
    requires s.Complete() && s.BoundaryConsistent()
    ensures Apply(s, op).BoundaryConsistent()
  {
    match op
    case Move(axis, step, isPositive, signal, cancelled) =>
      var heard := Signalled(s, signal);
      SignalledKeepsBoundaryConsistent(s, signal);
      AfterMoveEffect(heard.state, axis, step, isPositive);
    case Response(raw) =>
      SignalledKeepsBoundaryConsistent(s, FrameSignal(raw));
    case Stop =>
  }

  /**
   * Starting from a consistent state (the fresh one is), no sequence of moves,
   * platform frames and stops flags an axis at both of its switches at once.
   */
  lemma {:induction false} RunKeepsBoundaryConsistent(s: PlatformSavedData, ops: seq<Op>)
    requires s.Complete() && s.BoundaryConsistent()
    ensures Run(s, ops).BoundaryConsistent()
    decreases |ops|
  {
    if ops != [] {
      ApplyKeepsBoundaryConsistent(s, ops[0]);
      RunKeepsBoundaryConsistent(Apply(s, ops[0]), ops[1..]);
    }
  }

  lemma FreshConsistent()
    ensures Fresh.Complete() && Fresh.BoundaryConsistent()
  {
    AllClearCovers();
  }

  class Platform3DService {
    const crc: CrcFn
    const position: PlatformPosition
    const status: PlatformStatus
    /** Everything sent, waited for, saved or stopped, in order. */
    ghost var log: seq<PlatformEvent>

    predicate Valid()
      reads status
    {
      status.Valid()
    }

    /** The persisted part of the state, as a save would write it. */
    function State(): PlatformSavedData
      reads position, status
    {
      PlatformSavedData(position.x, position.y, position.z, status.isAtMin, status.isAtMax)
    }

    constructor (crc: CrcFn)
      ensures Valid() && State() == Fresh
      ensures !status.isMoving && !status.isHomed
      ensures log == []
      ensures this.crc == crc
    {
      this.crc := crc;
      position := new PlatformPosition();
      status := new PlatformStatus();
      log := [];
      new;
      assert status.isAtMin == AllClear by {
        AllClearCovers();
      }
      assert status.isAtMax == AllClear;
    }

    /** Writes the current snapshot to the position file. */
    method SavePositionAsync()
      modifies this`log
      ensures log == old(log) + [Saved(State())]
    {
      log := log + [Saved(State())];
    }

    /** Writes the move command to the serial link; the bytes are `SentMove(axis, isPositive, step).Wire(crc)`. */
    method SendMoveCommand(axis: Axis, step: int, isPositive: bool)
      modifies this`log
      ensures log == old(log) + [SentMove(axis, isPositive, step)]
    {
      var cmd := CreatePlatformMove(crc, axis.Code(), isPositive, step);
      assert cmd == SentMove(axis, isPositive, step).Wire(crc);
      log := log + [SentMove(axis, isPositive, step)];
    }

    method UpdateLocalPosition(axis: Axis, step: int, isPositive: bool)
      requires Valid()
      modifies position, status
      ensures Valid()
      ensures State() == AfterMove(old(State()), axis, step, isPositive)
      ensures status.isMoving == old(status.isMoving) && status.isHomed == old(status.isHomed)
    {
      ghost var s0 := State();
      var delta := if isPositive then step else -step;
      position.Set(axis, position.Get(axis) + delta);
      WithAtExtensional(s0, State(), axis);
      if isPositive {
        status.isAtMin := status.isAtMin[axis := false];
      } else {
        status.isAtMax := status.isAtMax[axis := false];
      }
    }

    /**
     * One move request. `signal` is the limit-switch signal, if any, that arrives
     * while the move waits; `cancelled` says whether the caller's token has
     * fired by the end of the wait. The busy flag, once taken, is released on
     * every exit.
     */
    method MoveAxisAsync(axis: Axis, step: int, isPositive: bool, signal: Option<BoundarySignal>, cancelled: bool)
      returns (result: MoveResult)
      requires Valid()
      modifies this, position, status
      ensures Valid()
      ensures result == MoveOutcome(old(State()), old(status.isMoving), axis, step, isPositive, cancelled)
      ensures var e := MoveEffect(old(State()), old(status.isMoving), axis, step, isPositive, signal, cancelled);
              State() == e.state && log == old(log) + e.events
      ensures status.isMoving == old(status.isMoving) && status.isHomed == old(status.isHomed)
    {
      ghost var s0, m0 := State(), status.isMoving;
      if !CheckSafety(State(), axis, step, isPositive) {
        assert MoveEffect(s0, m0, axis, step, isPositive, signal, cancelled) == Effect(s0, []);
        return Refused;
      }
      if status.isMoving {
        assert MoveEffect(s0, m0, axis, step, isPositive, signal, cancelled) == Effect(s0, []);
        return Refused;
      }
      assert MoveEffect(s0, m0, axis, step, isPositive, signal, cancelled)
          == Travel(s0, axis, step, isPositive, signal, cancelled);
      status.isMoving := true;
      assert State() == s0;
      result := Drive(axis, step, isPositive, signal, cancelled);
      status.isMoving := false;
    }

    /** The guarded part of a move, run with the busy flag held: send, wait, book, save. */
    method Drive(axis: Axis, step: int, isPositive: bool, signal: Option<BoundarySignal>, cancelled: bool)
      returns (result: MoveResult)
      requires Valid()
      modifies this, position, status
      ensures Valid()
      ensures result == (if CalculateMoveDelay(step) < 0 then Faulted else if cancelled then Cancelled else Moved)
      ensures var e := Travel(old(State()), axis, step, isPositive, signal, cancelled);
              State() == e.state && log == old(log) + e.events
      ensures status.isMoving == old(status.isMoving) && status.isHomed == old(status.isHomed)
    {
      ghost var s0, log0 := State(), log;
      SendMoveCommand(axis, step, isPositive);
      ghost var command := [SentMove(axis, isPositive, step)];
      var delay := CalculateMoveDelay(step);
      if delay < 0 {
        return Faulted;
      }
      log := log + [Waited(delay)];
      ghost var heard := Signalled(s0, signal);
      if signal.Some? {
        HandleBoundarySignal(signal.value.axis, signal.value.isZero);
      }
      assert State() == heard.state;
      ghost var waited := command + [Waited(delay)] + heard.events;
      assert log == log0 + waited;
      if !cancelled {
        UpdateLocalPosition(axis, step, isPositive);
        SavePositionAsync();
        return Moved;
      }
      return Cancelled;
    }

    method HandleBoundarySignal(axis: Axis, isZero: bool)
      requires Valid()
      modifies this, position, status
      ensures Valid()
      ensures State() == AfterBoundary(old(State()), axis, isZero)
      ensures log == old(log) + [Saved(State())]
      ensures status.isMoving == old(status.isMoving) && status.isHomed == old(status.isHomed)
    {
      ghost var s0 := State();
      position.Set(axis, if isZero then 0 else GetMaxStep(axis));
      WithAtExtensional(s0, State(), axis);
      status.isAtMin := status.isAtMin[axis := isZero];
      status.isAtMax := status.isAtMax[axis := !isZero];
      SavePositionAsync();
    }

    /** Clears the busy flag; nothing is sent to the hardware. */
    method StopAll()
      modifies this`log, status
      ensures !status.isMoving && status.isHomed == old(status.isHomed)
      ensures State() == old(State()) && log == old(log) + [Stopped]
    {
      status.isMoving := false;
      log := log + [Stopped];
    }

    /** Handles a platform frame: frames under 8 bytes and unknown byte-6 codes are ignored. */
    method HandleHardwareResponse(raw: seq<byte>)
      requires Valid()
      modifies this, position, status
      ensures Valid()
      ensures var e := Respond(old(State()), raw);
              State() == e.state && log == old(log) + e.events
      ensures status.isMoving == old(status.isMoving) && status.isHomed == old(status.isHomed)
    {
      if |raw| < 8 {
        return;
      }
      match SignalOf(raw[6]) {
        case Some(sig) => HandleBoundarySignal(sig.axis, sig.isZero);
        case None =>
      }
    }

    /**
     * Restores a loaded snapshot (absent when there is no readable file): the
     * coordinates, then the two flags of every axis listed in the loaded min
     * table. A listed axis missing from the max table would throw.
     */
    method InitializeAsync(loaded: Option<PlatformSavedData>)
      requires Valid()
      requires loaded.Some? ==> loaded.value.isAtMin.Keys <= loaded.value.isAtMax.Keys
      modifies position, status
      ensures Valid()
      ensures loaded.None? ==> State() == old(State())
      ensures loaded.Some? ==>
                var l := loaded.value;
                && position.x == l.x && position.y == l.y && position.z == l.z
                && status.isAtMin == old(status.isAtMin) + l.isAtMin
                && status.isAtMax == old(status.isAtMax) + (map a | a in l.isAtMin :: l.isAtMax[a])
      ensures loaded.Some? && loaded.value.Complete() ==> State() == loaded.value
      ensures status.isMoving == old(status.isMoving) && status.isHomed == old(status.isHomed)
    {
      if loaded.None? {
        return;
      }
      var l := loaded.value;
      position.x, position.y, position.z := l.x, l.y, l.z;
      ghost var min0, max0 := status.isAtMin, status.isAtMax;
      ghost var loadedMax := map a | a in l.isAtMin :: l.isAtMax[a];
      var keys := l.isAtMin.Keys;
      while keys != {}
        invariant keys <= l.isAtMin.Keys
        invariant status.isAtMin == min0 + (l.isAtMin - keys)
        invariant status.isAtMax == max0 + (loadedMax - keys)
        invariant position.x == l.x && position.y == l.y && position.z == l.z
        invariant status.isMoving == old(status.isMoving) && status.isHomed == old(status.isHomed)
        decreases keys
      {
        var a :| a in keys;
        OverlayStep(min0, l.isAtMin, keys, a);
        OverlayStep(max0, loadedMax, keys, a);
        status.isAtMin := status.isAtMin[a := l.isAtMin[a]];
        status.isAtMax := status.isAtMax[a := l.isAtMax[a]];
        keys := keys - {a};
      }
      assert l.isAtMin - {} == l.isAtMin && loadedMax - {} == loadedMax;
      if l.Complete() {
        OverlayCovering(min0, l.isAtMin);
        assert loadedMax == l.isAtMax;
        OverlayCovering(max0, l.isAtMax);
      }
    }
  }
}
