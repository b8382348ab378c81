/**
 * The receive-side demultiplexer. Raw bytes from the shared serial link are
 * appended to one buffer, which is then drained in priority order: a 34-byte
 * battery frame, an 8-byte platform response, a 13-byte control response with
 * a valid checksum. The loop waits for more input only on a `DD 03` prefix
 * shorter than 34 bytes or a `68 ?? ?? FF` prefix shorter than 8 bytes; in
 * every other unmatched case it drops exactly the first byte.
 */
module Protocol {
  import opened CSharp
  import opened ControlProtocol
  import opened Commands
  import opened Sequences

  const BatteryFrameLength: nat := 34
  const PlatformFrameLength: nat := 8
  const BatteryEnd: byte := 0x77
  const BatterySecond: byte := 0x03

  /** What one loop iteration does with the head of the buffer. */
  datatype Event =
    | BatteryFrame(bytes: seq<byte>)
    | PlatformFrame(bytes: seq<byte>)
    | ControlResponse(bytes: seq<byte>)
    | Dropped(b: byte)
  {
    /** The buffer bytes this event consumed. */
    function Consumed(): seq<byte> {
      if Dropped? then [b] else bytes
    }
  }

  /** The shape each emitted frame is guaranteed to have. */
  predicate WellFormed(crc: CrcFn, e: Event) {
    match e
    case BatteryFrame(f) =>
      |f| == BatteryFrameLength && f[0] == BatteryStart && f[1] == BatterySecond && f[33] == BatteryEnd
    case PlatformFrame(f) =>
      |f| == PlatformFrameLength && f[0] == FrameHeader && f[3] == FunctionCode.Platform3D.Code() && f[7] == FrameFooter
    case ControlResponse(f) =>
      |f| == CommandTotalLength && f[0] == FrameHeader && f[12] == FrameFooter && CrcValid(crc, f)
    case Dropped(_) => true
  }

  /** A buffer the loop leaves in place, waiting for the rest of a frame. */
  predicate Pending(buf: seq<byte>) {
    || (|buf| >= 2 && buf[0] == BatteryStart && buf[1] == BatterySecond && |buf| < BatteryFrameLength)
    || (|buf| >= 4 && buf[0] == FrameHeader && buf[3] == FunctionCode.Platform3D.Code() && |buf| < PlatformFrameLength)
  }

  function Concat(es: seq<Event>): seq<byte> {
    if es == [] then [] else es[0].Consumed() + Concat(es[1..])
  }

  lemma ConcatCons(e: Event, es: seq<Event>)
    ensures Concat([e] + es) == e.Consumed() + Concat(es)
  {
    assert ([e] + es)[1..] == es;
  }

  lemma ConcatAppend(a: seq<Event>, b: seq<Event>)
    ensures Concat(a + b) == Concat(a) + Concat(b)
  {
    if a == [] {
      assert a + b == b;
    } else {
      assert (a + b)[1..] == a[1..] + b;
      ConcatAppend(a[1..], b);
    }
  }

  datatype Action = Accept(e: Event, n: nat) | Wait | Discard

  /** One iteration of the drain loop on a non-empty buffer, branch for branch. */
  function Scan(crc: CrcFn, buf: seq<byte>): (a: Action)
    requires |buf| > 0
    ensures a.Accept? ==> 0 < a.n <= |buf| && a.e.Consumed() == buf[..a.n] && !a.e.Dropped? && WellFormed(crc, a.e)
    ensures a.Wait? <==> Pending(buf)
  {
    var battery := buf[0] == BatteryStart && |buf| >= 2 && buf[1] == BatterySecond;
    var platform := buf[0] == FrameHeader && |buf| >= 4 && buf[3] == FunctionCode.Platform3D.Code();
    if battery && |buf| < BatteryFrameLength then Wait
    else if battery && buf[33] == BatteryEnd then Accept(BatteryFrame(buf[..34]), 34)
    else if platform && |buf| < PlatformFrameLength then Wait
    else if platform && buf[7] == FrameFooter then Accept(PlatformFrame(buf[..8]), 8)
    else if buf[0] == FrameHeader && |buf| >= CommandTotalLength && buf[12] == FrameFooter
            && CrcValid(crc, buf[..13]) then Accept(ControlResponse(buf[..13]), 13)
    else Discard
  }

  datatype Drained = Drained(events: seq<Event>, rest: seq<byte>)

  /** Everything one call of the receive handler does to a buffer: the events in order and the bytes left behind. */
  function Drain(crc: CrcFn, buf: seq<byte>): Drained
    decreases |buf|
  {
    if buf == [] then Drained([], [])
    else
      match Scan(crc, buf)
      case Wait => Drained([], buf)
      case Accept(e, n) =>
        var d := Drain(crc, buf[n..]);
        Drained([e] + d.events, d.rest)
      case Discard =>
        var d := Drain(crc, buf[1..]);
        Drained([Dropped(buf[0])] + d.events, d.rest)
  }

  /** One step of the drain: the first event consumes a prefix of the buffer and the rest is drained alone. */
  lemma DrainStep(crc: CrcFn, buf: seq<byte>) returns (e: Event, n: nat)
    requires buf != [] && !Scan(crc, buf).Wait?
    ensures 0 < n <= |buf| && e.Consumed() == buf[..n]
    ensures Drain(crc, buf) == Drained([e] + Drain(crc, buf[n..]).events, Drain(crc, buf[n..]).rest)
  {
    match Scan(crc, buf)
    case Accept(e', n') => e, n := e', n';
    case Discard => e, n := Dropped(buf[0]), 1;
  }

  /** Conservation: the consumed bytes of the events, then what is left, are exactly the input. */
  lemma {:induction false} DrainConserves(crc: CrcFn, buf: seq<byte>)
    ensures Concat(Drain(crc, buf).events) + Drain(crc, buf).rest == buf
    decreases |buf|
  {
    if buf != [] && !Scan(crc, buf).Wait? {
      var e, n := DrainStep(crc, buf);
      var d := Drain(crc, buf[n..]);
      DrainConserves(crc, buf[n..]);
      ConcatCons(e, d.events);
      AppendAssoc(e.Consumed(), Concat(d.events), d.rest);
      AppendSplit(buf, n);
    }
  }

  /** Every emitted frame has its protocol's length, header, footer and (for control responses) a valid checksum. */
  lemma {:induction false} DrainWellFormed(crc: CrcFn, buf: seq<byte>)
    ensures forall e :: e in Drain(crc, buf).events ==> WellFormed(crc, e)
    decreases |buf|
  {
    if buf != [] {
      match Scan(crc, buf)
      case Wait =>
      case Accept(e, n) => DrainWellFormed(crc, buf[n..]);
      case Discard => DrainWellFormed(crc, buf[1..]);
    }
  }

  /** On return the buffer is empty or holds a pending battery or platform prefix. */
  lemma {:induction false} DrainRest(crc: CrcFn, buf: seq<byte>)
    ensures Drain(crc, buf).rest == [] || Pending(Drain(crc, buf).rest)
    decreases |buf|
  {
    if buf != [] {
      match Scan(crc, buf)
      case Wait =>
      case Accept(e, n) => DrainRest(crc, buf[n..]);
      case Discard => DrainRest(crc, buf[1..]);
    }
  }

  /**
   * A pending prefix is kept whole: a battery or platform frame split across
   * two reads waits for the rest instead of losing bytes.
   */
  lemma PendingKept(crc: CrcFn, buf: seq<byte>)
    requires Pending(buf)
    ensures Drain(crc, buf) == Drained([], buf)
  {
    assert Scan(crc, buf) == Wait;
  }

  /** The frames among the events: what is published to the rest of the application. */
  function Frames(es: seq<Event>): (fs: seq<Event>)
    ensures forall e :: e in fs ==> e in es && !e.Dropped?
    ensures forall e :: e in es && !e.Dropped? ==> e in fs
    ensures Subsequence(fs, es)
  {
    if es == [] then []
    else if es[0].Dropped? then Frames(es[1..])
    else
      var fs := [es[0]] + Frames(es[1..]);
      assert fs[1..] == Frames(es[1..]);
      fs
  }

  /** Each non-dropped event is published exactly as often as it occurs, and no dropped byte is. */
  lemma {:induction false} FramesCounts(es: seq<Event>)
    ensures forall x :: multiset(Frames(es))[x] == if x.Dropped? then 0 else multiset(es)[x]
  {
    if es != [] {
      FramesCounts(es[1..]);
      assert es == [es[0]] + es[1..];
    }
  }

  class ProtocolService {
    const crc: CrcFn
    /** The receive buffer (`List<byte> _buffer`). */
    var buffer: seq<byte>
    /** Every frame published so far, in order. */
    ghost var published: seq<Event>

    constructor (crc: CrcFn)
      ensures this.crc == crc && buffer == [] && published == []
    {
      this.crc := crc;
      buffer := [];
      published := [];
    }

    /** Append the received chunk and drain the buffer; returns what the loop did, in order. */
    method OnDataReceived(data: seq<byte>) returns (events: seq<Event>)
      modifies this
      ensures Drained(events, buffer) == Drain(crc, old(buffer) + data)
      ensures Concat(events) + buffer == old(buffer) + data
      ensures forall e :: e in events ==> WellFormed(crc, e)
      ensures buffer == [] || Pending(buffer)
      ensures published == old(published) + Frames(events)
    {
      buffer := buffer + data;
      events := [];
      ghost var whole := buffer;
      while |buffer| > 0
        invariant Drain(crc, whole) == Drained(events + Drain(crc, buffer).events, Drain(crc, buffer).rest)
        invariant published == old(published) + Frames(events)
        decreases |buffer|
      {
        // 1. battery frame DD 03 ... 77, 34 bytes
        if buffer[0] == BatteryStart && |buffer| >= 2 && buffer[1] == BatterySecond {
          if |buffer| < BatteryFrameLength {
            DrainWait(crc, buffer);
            break;
          }
          if buffer[33] == BatteryEnd {
            var frame := buffer[..34];
            Consume(BatteryFrame(frame), 34, events, old(published));
            events := events + [BatteryFrame(frame)];
            buffer := buffer[34..];
            continue;
          }
        }
        // 2. control family, header 0x68
        if buffer[0] == FrameHeader {
          // 2.1 platform response, 8 bytes
          if |buffer| >= 4 && buffer[3] == FunctionCode.Platform3D.Code() {
            if |buffer| < PlatformFrameLength {
              DrainWait(crc, buffer);
              break;
            }
            if buffer[7] == FrameFooter {
              var frame := buffer[..8];
              Consume(PlatformFrame(frame), 8, events, old(published));
              events := events + [PlatformFrame(frame)];
              buffer := buffer[8..];
              continue;
            }
          }
          // 2.2 control response, 13 bytes, checksum over bytes 0..10
          if |buffer| >= CommandTotalLength {
            if buffer[12] == FrameFooter {
              var frame := buffer[..13];
              var c := crc(frame[..10]);
              if frame[10] == c.0 && frame[11] == c.1 {
                Consume(ControlResponse(frame), 13, events, old(published));
                events := events + [ControlResponse(frame)];
                buffer := buffer[13..];
                continue;
              }
            }
          }
        }
        // nothing matched: the first byte is noise
        Consume(Dropped(buffer[0]), 1, events, old(published));
        events := events + [Dropped(buffer[0])];
        buffer := buffer[1..];
      }
      assert events + [] == events;
      DrainConserves(crc, whole);
      DrainWellFormed(crc, whole);
      DrainRest(crc, whole);
    }

    /** One iteration's bookkeeping: the event heads the buffer's drain, and frames are published. */
    ghost method Consume(e: Event, n: nat, events: seq<Event>, before: seq<Event>)
      requires 0 < n <= |buffer|
      requires Scan(crc, buffer) == (if e.Dropped? then Discard else Accept(e, n))
      requires e.Dropped? ==> n == 1 && e.b == buffer[0]
      requires published == before + Frames(events)
      modifies this`published
      ensures Drain(crc, buffer) == Drained([e] + Drain(crc, buffer[n..]).events, Drain(crc, buffer[n..]).rest)
      ensures published == before + Frames(events + [e])
      ensures events + [e] + Drain(crc, buffer[n..]).events == events + Drain(crc, buffer).events
    {
      FramesAppend(events, [e]);
      AppendAssoc(events, [e], Drain(crc, buffer[n..]).events);
      if !e.Dropped? {
        AppendAssoc(before, Frames(events), [e]);
        published := published + [e];
      } else {
        assert Frames(events + [e]) == Frames(events) + [];
      }
    }
  }

  lemma DrainWait(crc: CrcFn, buf: seq<byte>)
    requires |buf| > 0 && Scan(crc, buf) == Wait
    ensures Drain(crc, buf) == Drained([], buf)
  {
  }

  lemma FramesAppend(a: seq<Event>, b: seq<Event>)
    ensures Frames(a + b) == Frames(a) + Frames(b)
  {
    if a == [] {
      assert a + b == b;
    } else {
      assert (a + b)[1..] == a[1..] + b;
      FramesAppend(a[1..], b);
    }
  }
  /** A factory frame whose function code is not the platform code comes out as one control response, whatever follows it. */
  lemma SealedFrameRecovered(crc: CrcFn, frame: seq<byte>, tail: seq<byte>)
    requires SealedFrame(crc, frame)
    requires frame[3] != FunctionCode.Platform3D.Code() || frame[7] != FrameFooter
    ensures Drain(crc, frame + tail)
         == Drained([ControlResponse(frame)] + Drain(crc, tail).events, Drain(crc, tail).rest)
  {
    var buf := frame + tail;
    assert buf[..13] == frame;
    assert buf[13..] == tail;
    assert Scan(crc, buf) == Accept(ControlResponse(frame), 13);
  }

  /** `PackFrame` output fed into an empty buffer is emitted unchanged as exactly one control response. */
  lemma PackFrameRoundTrip(crc: CrcFn, addr: DeviceAddr, kind: CommandType, func: FunctionCode, data: seq<byte>)
    requires func != FunctionCode.Platform3D
    ensures var f := PackFrame(crc, addr, kind, func, data);
            Drain(crc, f) == Drained([ControlResponse(f)], [])
  {
    var f := PackFrame(crc, addr, kind, func, data);
    CodesInjective();
    SealedFrameRecovered(crc, f, []);
    assert f + [] == f;
  }

  /**
   * A platform move command carries function code 0xFF, but its byte 7 is the
   * direction 0 or 1 and never the footer, so it too is a single control response.
   */
  lemma PlatformMoveRoundTrip(crc: CrcFn, dimension: int, isPositive: bool, step: int)
    ensures var f := CreatePlatformMove(crc, dimension, isPositive, step);
            Drain(crc, f) == Drained([ControlResponse(f)], [])
  {
    var f := CreatePlatformMove(crc, dimension, isPositive, step);
    SealedFrameRecovered(crc, f, []);
    assert f + [] == f;
  }

  /** A leading 0xDD not followed by 0x03 (or alone) is dropped at once rather than waited on. */
  lemma LoneBatteryStartDropped(crc: CrcFn, buf: seq<byte>)
    requires |buf| > 0 && buf[0] == BatteryStart
    requires |buf| == 1 || buf[1] != BatterySecond
    ensures Drain(crc, buf) == Drained([Dropped(BatteryStart)] + Drain(crc, buf[1..]).events, Drain(crc, buf[1..]).rest)
  {
    assert Scan(crc, buf) == Discard;
  }

  /** A 0x68-headed prefix shorter than 13 bytes with no 0xFF at index 3 loses its first byte instead of waiting. */
  lemma ShortControlPrefixDropped(crc: CrcFn, buf: seq<byte>)
    requires 0 < |buf| < CommandTotalLength && buf[0] == FrameHeader
    requires |buf| < 4 || buf[3] != FunctionCode.Platform3D.Code()
    ensures Drain(crc, buf) == Drained([Dropped(FrameHeader)] + Drain(crc, buf[1..]).events, Drain(crc, buf[1..]).rest)
  {
    assert Scan(crc, buf) == Discard;
  }

  /** A buffer in which no byte is 0xDD or 0x68 is dropped byte by byte and leaves nothing behind. */
  lemma {:induction false} NoHeaderAllDropped(crc: CrcFn, buf: seq<byte>)
    requires forall i :: 0 <= i < |buf| ==> buf[i] != BatteryStart && buf[i] != FrameHeader
    ensures Drain(crc, buf).rest == [] && Frames(Drain(crc, buf).events) == []
    ensures |Drain(crc, buf).events| == |buf|
    decreases |buf|
  {
    if buf != [] {
      assert Scan(crc, buf) == Discard;
      NoHeaderAllDropped(crc, buf[1..]);
    }
  }

  /** The battery query, echoed back on the link, is noise to the demultiplexer: all seven bytes are dropped. */
  lemma BatteryQueryNotAFrame(crc: CrcFn)
    ensures Drain(crc, CreateBatteryQuery()) == Drained(seq(7, i requires 0 <= i < 7 => Dropped(CreateBatteryQuery()[i])), [])
  {
    var q := CreateBatteryQuery();
    assert Scan(crc, q) == Discard;
    NoHeaderAllDropped(crc, q[1..]);
    var d := Drain(crc, q[1..]);
    ghost var rest := q[1..];
    assert Scan(crc, rest) == Discard;
    assert Scan(crc, rest[1..]) == Discard;
    assert Scan(crc, rest[2..]) == Discard;
    assert Scan(crc, rest[3..]) == Discard;
    assert Scan(crc, rest[4..]) == Discard;
    assert Scan(crc, rest[5..]) == Discard;
    assert rest[6..] == [];
  }

  /**
   * The result depends on how the stream is cut into chunks: a battery frame
   * delivered whole is emitted, but if its first byte arrives alone that byte is
   * dropped as noise, and the remaining 33 bytes never form a frame.
   */
  lemma ChunkingMatters(crc: CrcFn)
    ensures var frame := [BatteryStart, BatterySecond] + seq(31, _ => 0) + [BatteryEnd];
            && Drain(crc, frame).events == [BatteryFrame(frame)]
            && Drain(crc, frame[..1]) == Drained([Dropped(BatteryStart)], [])
            && Frames(Drain(crc, [] + frame[1..]).events) == []
  {
    var frame := [BatteryStart, BatterySecond] + seq(31, _ => 0) + [BatteryEnd];
    assert |frame| == 34 && frame[33] == BatteryEnd;
    assert frame[..34] == frame && frame[34..] == [];
    assert Scan(crc, frame) == Accept(BatteryFrame(frame), 34);
    assert Scan(crc, frame[..1]) == Discard;
    assert frame[..1][1..] == [];
    assert [] + frame[1..] == frame[1..];
    NoHeaderAllDropped(crc, frame[1..]);
  }
}
