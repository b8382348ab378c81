/**
 * The high-voltage supply monitor. It polls the controller once a second with
 * a function-0x66 query and reads the supply's voltage and current from the
 * 13-byte 0x66 replies, each word high byte first. Settings go out as
 * function-0x22 frames, whose words are written low byte first.
 */
module HighVoltage {
  import opened CSharp
  import opened Wrappers
  import opened ControlProtocol
  import opened Commands
  import opened Protocol
  import opened Watchdog

  /** The poll period of the service's timer. */
  const PollIntervalMs: nat := 1000

  datatype PowerReading = PowerReading(voltage: nat, current: nat)

  /** A 16-bit word as two bytes, high byte first. */
  function WordBytes(w: nat): (bs: seq<byte>)
    requires w < 0x1_0000
    ensures |bs| == 2 && BigEndian(bs[0], bs[1]) == w
  {
    [w / 256, w % 256]
  }

  /** The reading a reply carries: only a 13-byte frame with function code 0x66 is a power report. */
  function ReadPowerInfo(frame: seq<byte>): (r: Option<PowerReading>)
    ensures r.Some? <==> |frame| == CommandTotalLength && frame[3] == FunctionCode.ReturnPowerInfo.Code()
    ensures r.Some? ==> r.value.voltage < 0x1_0000 && r.value.current < 0x1_0000
    ensures r.Some? ==> Payload(frame) == WordBytes(r.value.voltage) + WordBytes(r.value.current)
  {
    if |frame| == CommandTotalLength && frame[3] == FunctionCode.ReturnPowerInfo.Code() then
      WordBytesOf(frame[6], frame[7]);
      WordBytesOf(frame[8], frame[9]);
      assert Payload(frame) == [frame[6], frame[7]] + [frame[8], frame[9]];
      Some(PowerReading(BigEndian(frame[6], frame[7]), BigEndian(frame[8], frame[9])))
    else None
  }

  /** Two bytes read high byte first are a 16-bit word that splits back into the same two bytes. */
  lemma WordBytesOf(hi: byte, lo: byte)
    ensures BigEndian(hi, lo) < 0x1_0000 && WordBytes(BigEndian(hi, lo)) == [hi, lo]
  {
    var w := 256 * hi + lo;
    assert w / 256 == hi && w % 256 == lo;
  }

  /** A power report the controller packs, whatever its addressing, reads back as the voltage and current it carries. */
  lemma PowerReportRoundTrip(crc: CrcFn, addr: DeviceAddr, kind: CommandType, voltage: nat, current: nat)
    requires voltage < 0x1_0000 && current < 0x1_0000
    ensures ReadPowerInfo(PackFrame(crc, addr, kind, FunctionCode.ReturnPowerInfo,
                                    WordBytes(voltage) + WordBytes(current)))
            == Some(PowerReading(voltage, current))
  {
    var f := PackFrame(crc, addr, kind, FunctionCode.ReturnPowerInfo, WordBytes(voltage) + WordBytes(current));
    assert Payload(f) == f[6..10];
    assert f[6] == voltage / 256 && f[7] == voltage % 256;
    assert f[8] == current / 256 && f[9] == current % 256;
  }

  /**
   * The service's own query is a 0x66 frame too: were it echoed back on the
   * link, it would be taken for a report of zero volts and zero amperes.
   */
  lemma QueryEchoReadsZero(crc: CrcFn)
    ensures ReadPowerInfo(CreateHighVoltageQuery(crc)) == Some(PowerReading(0, 0))
  {
    var f := CreateHighVoltageQuery(crc);
    assert Payload(f) == f[6..10];
    assert f[6] == 0 && f[7] == 0 && f[8] == 0 && f[9] == 0;
  }

  /**
   * Settings and reports use opposite byte orders: 1000 V set as `E8 03`
   * would read back as 59395 V if the report used the setting's layout.
   */
  lemma SettingAndReportByteOrderDiffer(crc: CrcFn)
    ensures var f := CreateHighVoltage(crc, 1000, 10);
            LittleEndian(f[6], f[7]) == 1000 && BigEndian(f[6], f[7]) == 59395
  {
    var f := CreateHighVoltage(crc, 1000, 10);
    assert LittleEndian(f[6], f[7]) == 1000;
    assert f[7] == 3 by {
      assert f[6] < 256;
    }
  }

  /** A control response the demultiplexer publishes is read as a power report exactly when its function code is 0x66. */
  lemma DemuxedReportsAreRead(crc: CrcFn, buf: seq<byte>)
    ensures forall e :: e in Drain(crc, buf).events && e.ControlResponse? ==>
              && |e.bytes| == CommandTotalLength
              && (ReadPowerInfo(e.bytes).Some? <==> e.bytes[3] == FunctionCode.ReturnPowerInfo.Code())
  {
    DrainWellFormed(crc, buf);
  }

  class HighVoltageService {
    const crc: CrcFn
    var voltage: int
    var current: int
    var isOnline: bool
    var lastReceived: Option<int>
    var timerEnabled: bool
    /** The frames handed to the serial port, oldest first. */
    ghost var sent: seq<seq<byte>>

    /** The link is never online without a reply on record. */
    predicate Valid()
      reads this
    {
      isOnline ==> lastReceived.Some?
    }

    constructor(crc: CrcFn)
      ensures Valid() && this.crc == crc
      ensures voltage == 0 && current == 0 && !isOnline && lastReceived.None? && !timerEnabled && sent == []
    {
      this.crc := crc;
      voltage, current, isOnline, lastReceived, timerEnabled := 0, 0, false, None, false;
      sent := [];
    }

    /** Starting a stopped monitor queries at once; starting a running one does nothing. */
    method Start()
      requires Valid()
      modifies this`timerEnabled, this`sent
      ensures Valid() && timerEnabled
      ensures sent == old(sent) + if old(timerEnabled) then [] else [CreateHighVoltageQuery(crc)]
    {
      if !timerEnabled {
        timerEnabled := true;
        SendQuery();
      }
    }

    /** Stopping always takes the link offline. */
    method Stop()
      modifies this`timerEnabled, this`isOnline
      ensures Valid() && !timerEnabled && !isOnline
    {
      timerEnabled := false;
      isOnline := false;
    }

    /** A setting goes out as one 0x22 frame and changes nothing else. */
    method SetHighVoltage(targetVoltage: int, targetCurrent: int)
      modifies this`sent
      ensures sent == old(sent) + [CreateHighVoltage(crc, targetVoltage, targetCurrent)]
    {
      sent := sent + [CreateHighVoltage(crc, targetVoltage, targetCurrent)];
    }

    /** A poll tick at `now`: the watchdog check, then a query, every time. */
    method OnPollingTimerElapsed(now: int)
      requires Valid()
      modifies this`isOnline, this`sent
      ensures Valid()
      ensures isOnline == AfterTick(old(isOnline), lastReceived, now)
      ensures sent == old(sent) + [CreateHighVoltageQuery(crc)]
    {
      if isOnline && now - lastReceived.value > MaxOfflineMs {
        isOnline := false;
      }
      SendQuery();
    }

    method SendQuery()
      modifies this`sent
      ensures sent == old(sent) + [CreateHighVoltageQuery(crc)]
    {
      sent := sent + [CreateHighVoltageQuery(crc)];
    }

    /** A reply received at `now`: a power report updates the readings and stamps the link online; any other frame is ignored. */
    method ParseResponse(frame: seq<byte>, now: int)
      requires Valid()
      modifies this`voltage, this`current, this`isOnline, this`lastReceived
      ensures Valid()
      ensures ReadPowerInfo(frame).None? ==>
                voltage == old(voltage) && current == old(current)
                && isOnline == old(isOnline) && lastReceived == old(lastReceived)
      ensures ReadPowerInfo(frame).Some? ==>
                voltage == ReadPowerInfo(frame).value.voltage && current == ReadPowerInfo(frame).value.current
                && isOnline && lastReceived == Some(now)
    {
      if |frame| == CommandTotalLength && frame[3] == FunctionCode.ReturnPowerInfo.Code() {
        voltage := frame[6] as int * 256 + frame[7];
        current := frame[8] as int * 256 + frame[9];
        isOnline := true;
        lastReceived := Some(now);
      }
    }
  }
}
