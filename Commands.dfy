/**
 * The command factory: every outbound command is a 13-byte control frame
 * `68 addr type func 0D 00 p0 p1 p2 p3 crcHi crcLo 16`, except the fixed
 * 7-byte battery query. The checksum routine is not part of this model; it is
 * a parameter `crc` mapping the first ten bytes of a frame to two bytes.
 */
module Commands {
  import opened CSharp
  import opened ControlProtocol

  /** A deterministic two-byte checksum over a byte window (the frame's bytes 0..10). */
  type CrcFn = seq<byte> -> (byte, byte)

  /** Bytes 10 and 11 of a 13-byte frame hold the checksum of bytes 0..10. */
  predicate CrcValid(crc: CrcFn, frame: seq<byte>)
    requires |frame| == CommandTotalLength
  {
    crc(frame[..10]) == (frame[10], frame[11])
  }

  /** A frame as the controller expects it: header, declared length, reserved byte, sealed checksum, footer. */
  predicate SealedFrame(crc: CrcFn, frame: seq<byte>) {
    && |frame| == CommandTotalLength
    && frame[0] == FrameHeader && frame[4] == DataLength && frame[5] == 0
    && frame[12] == FrameFooter
    && CrcValid(crc, frame)
  }

  /** The payload of a control frame, bytes 6..10. */
  function Payload(frame: seq<byte>): seq<byte>
    requires |frame| == CommandTotalLength
  {
    frame[6..10]
  }

  /** The common wrapper: header, addressing, a 4-byte payload (zero unless exactly 4 bytes are given), CRC, footer. */
  function PackFrame(crc: CrcFn, addr: DeviceAddr, kind: CommandType, func: FunctionCode, data: seq<byte>): (r: seq<byte>)
    ensures SealedFrame(crc, r)
    ensures r[1] == addr.Code() && r[2] == kind.Code() && r[3] == func.Code()
    ensures Payload(r) == if |data| == 4 then data else [0, 0, 0, 0]
  {
    var head := [FrameHeader, addr.Code(), kind.Code(), func.Code(), DataLength, 0]
                + (if |data| == 4 then data else [0, 0, 0, 0]);
    var c := crc(head);
    assert (head + [c.0, c.1, FrameFooter])[..10] == head;
    head + [c.0, c.1, FrameFooter]
  }

  /** Every factory command goes from the PC to the main controller board. */
  function ToController(crc: CrcFn, func: FunctionCode, data: seq<byte>): (r: seq<byte>)
    ensures SealedFrame(crc, r) && r[3] == func.Code()
    ensures r[1] == DeviceAddr.Controller.Code() && r[2] == CommandType.PcToController.Code()
  {
    PackFrame(crc, DeviceAddr.Controller, CommandType.PcToController, func, data)
  }

  /** A two-byte field read low byte first. */
  function LittleEndian(lo: byte, hi: byte): nat { lo + 256 * hi }

  /** A two-byte field read high byte first. */
  function BigEndian(hi: byte, lo: byte): nat { 256 * hi + lo }

  /** High-voltage setting (function 0x22): voltage then current, each low byte first (C# `% 256`, `/ 256`). */
  function CreateHighVoltage(crc: CrcFn, voltage: int, current: int): (r: seq<byte>)
    ensures SealedFrame(crc, r) && r[3] == FunctionCode.HighVoltage.Code()
    ensures 0 <= voltage < 0x1_0000 ==> LittleEndian(r[6], r[7]) == voltage
    ensures 0 <= current < 0x1_0000 ==> LittleEndian(r[8], r[9]) == current
  {
    ToController(crc, FunctionCode.HighVoltage,
      [ToByte(Rem(voltage, 256)), ToByte(Div(voltage, 256)),
       ToByte(Rem(current, 256)), ToByte(Div(current, 256))])
  }

  /**
   * Peristaltic pump (function 0x33): `[isStart, isClockwise, hi, lo]` of
   * `(short)(speed * 100)`. The speed is clamped to 0..100 into a variable the
   * encoding never reads, so the unclamped speed is what goes on the wire.
   */
  function CreatePeristalticPump(crc: CrcFn, speed: int16, isClockwise: bool, isStart: bool): (r: seq<byte>)
    ensures SealedFrame(crc, r) && r[3] == FunctionCode.PeristalticSetting.Code()
    ensures r[6] == (if isStart then 1 else 0) && r[7] == (if isClockwise then 1 else 0)
    ensures 0 <= speed <= 327 ==> BigEndian(r[8], r[9]) == speed * 100
  {
    var safeSpeed := Clamp(speed, 0, 100);
    var scaledSpeed := ToInt16(speed * 100);
    ToController(crc, FunctionCode.PeristalticSetting,
      [if isStart then 1 else 0, if isClockwise then 1 else 0,
       ToByte(Div(scaledSpeed, 256)), ToByte(Rem(scaledSpeed, 256))])
  }

  /** The intended peristaltic encoding: the clamped speed is the one scaled and sent. */
  function CreatePeristalticPumpClamped(crc: CrcFn, speed: int16, isClockwise: bool, isStart: bool): (r: seq<byte>)
    ensures SealedFrame(crc, r) && r[3] == FunctionCode.PeristalticSetting.Code()
    ensures r[6] == (if isStart then 1 else 0) && r[7] == (if isClockwise then 1 else 0)
    ensures BigEndian(r[8], r[9]) == Clamp(speed, 0, 100) * 100
  {
    var safeSpeed := Clamp(speed, 0, 100);
    var scaledSpeed := ToInt16(safeSpeed * 100);
    ToController(crc, FunctionCode.PeristalticSetting,
      [if isStart then 1 else 0, if isClockwise then 1 else 0,
       ToByte(Div(scaledSpeed, 256)), ToByte(Rem(scaledSpeed, 256))])
  }

  /** As written, a speed of 200 is sent as 20000 (0x4E20) although the pump is limited to 100 (10000 would be 0x2710). */
  lemma PeristalticIgnoresClamp(crc: CrcFn)
    ensures Payload(CreatePeristalticPump(crc, 200, true, true)) == [1, 1, 0x4E, 0x20]
    ensures Payload(CreatePeristalticPumpClamped(crc, 200, true, true)) == [1, 1, 0x27, 0x10]
  {
  }

  /**
   * As written, a negative speed is not clamped to 0 and its truncated division
   * yields neither zero nor two's complement: -1 becomes `00 9C`.
   */
  lemma PeristalticNegativeSpeed(crc: CrcFn)
    ensures Payload(CreatePeristalticPump(crc, -1, false, true))[2..] == [0x00, 0x9C]
    ensures Payload(CreatePeristalticPumpClamped(crc, -1, false, true))[2..] == [0x00, 0x00]
  {
  }

  /** Steering valve by channel number (function 0x99): `[(byte)channel, 0, 0, 0]`. */
  function CreateSteeringValve(crc: CrcFn, channel: int): (r: seq<byte>)
    ensures SealedFrame(crc, r) && r[3] == FunctionCode.SteeringValve.Code()
    ensures 0 <= channel < 256 ==> r[6] == channel
    ensures r[7] == 0 && r[8] == 0 && r[9] == 0
  {
    ToController(crc, FunctionCode.SteeringValve, [ToByte(channel), 0, 0, 0])
  }

  /** Steering valve by state: state 2 selects channel 2, otherwise channel 1. */
  function CreateSteeringValveByState(crc: CrcFn, isChannel2: bool): (r: seq<byte>)
    ensures r == CreateSteeringValve(crc, if isChannel2 then 2 else 1)
  {
    ToController(crc, FunctionCode.SteeringValve, [if isChannel2 then 2 else 1, 0, 0, 0])
  }

  /** Syringe pump (function 0x44): `[isOutput, hi, lo, 0]` of the distance clamped to 0..3000. */
  function CreateSyringePump(crc: CrcFn, isOutput: bool, distance: int16): (r: seq<byte>)
    ensures SealedFrame(crc, r) && r[3] == FunctionCode.SyringeSetting.Code()
    ensures r[6] == (if isOutput then 1 else 0) && r[9] == 0
    ensures BigEndian(r[7], r[8]) == Clamp(distance, 0, 3000)
  {
    var safeDistance := Clamp(distance, 0, 3000);
    ToController(crc, FunctionCode.SyringeSetting,
      [if isOutput then 1 else 0, ToByte(Div(safeDistance, 256)), ToByte(Rem(safeDistance, 256)), 0])
  }

  /** Platform move (function 0xFF): `[(byte)dimension, direction, step low, step high]`. */
  function CreatePlatformMove(crc: CrcFn, dimension: int, isPositive: bool, step: int): (r: seq<byte>)
    ensures SealedFrame(crc, r) && r[3] == FunctionCode.Platform3D.Code()
    ensures 0 <= dimension < 256 ==> r[6] == dimension
    ensures r[7] == (if isPositive then 1 else 0)
    ensures 0 <= step < 0x1_0000 ==> LittleEndian(r[8], r[9]) == step
  {
    ToController(crc, FunctionCode.Platform3D,
      [ToByte(dimension), if isPositive then 1 else 0, ToByte(Rem(step, 256)), ToByte(Div(step, 256))])
  }

  /** Moving Y (code 2) by 1200 steps in the positive direction carries `02 01 B0 04`. */
  lemma PlatformMoveExample(crc: CrcFn)
    ensures Payload(CreatePlatformMove(crc, 2, true, 1200)) == [0x02, 0x01, 0xB0, 0x04]
  {
  }

  /** Multi-channel valve (function 0x77): `[channel clamped to 1..10, 0, 0, 0]`. */
  function CreateMultiChannelValve(crc: CrcFn, channel: int): (r: seq<byte>)
    ensures SealedFrame(crc, r) && r[3] == FunctionCode.MultiChannelValve.Code()
    ensures r[6] == Clamp(channel, 1, 10) && r[7] == 0 && r[8] == 0 && r[9] == 0
  {
    ToController(crc, FunctionCode.MultiChannelValve, [Clamp(channel, 1, 10), 0, 0, 0])
  }

  /** Ignition (function 0x88): `[0, 0, lo, hi]` of the fixed 1000 ms fire time, that is `00 00 E8 03`. */
  function CreateIgnition(crc: CrcFn): (r: seq<byte>)
    ensures SealedFrame(crc, r) && r[3] == FunctionCode.Ignition.Code()
    ensures r[6] == 0 && r[7] == 0 && LittleEndian(r[8], r[9]) == 1000
  {
    var fireTimeMs := 1000;
    ToController(crc, FunctionCode.Ignition, [0, 0, ToByte(fireTimeMs % 256), ToByte(fireTimeMs / 256)])
  }

  /** High-voltage status query (function 0x66) with an all-zero payload. */
  function CreateHighVoltageQuery(crc: CrcFn): (r: seq<byte>)
    ensures SealedFrame(crc, r) && r[3] == FunctionCode.ReturnPowerInfo.Code()
    ensures Payload(r) == [0, 0, 0, 0]
  {
    ToController(crc, FunctionCode.ReturnPowerInfo, [0, 0, 0, 0])
  }

  /** The battery query is its own fixed 7-byte command, outside the control framing. */
  function CreateBatteryQuery(): (r: seq<byte>)
    ensures |r| == 7 && r[0] == BatteryStart && r[6] == 0x77
    ensures |r| != CommandTotalLength
  {
    [0xDD, 0xA5, 0x03, 0x00, 0xFF, 0xFD, 0x77]
  }
}
