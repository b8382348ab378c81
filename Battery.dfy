/**
 * The battery monitor. It polls the pack every three seconds with the fixed
 * 7-byte query and reads the 34-byte replies: a signed current in units of
 * 10 mA (high byte first, positive while charging), the remaining capacity in
 * percent, and the charge-MOSFET bit that says an external supply is wired
 * in. A wired pack whose current is still negative is helping the supply
 * carry the load.
 */
module Battery {
  import opened CSharp
  import opened Wrappers
  import opened Commands
  import opened Protocol
  import opened Watchdog

  /** The poll period of the service's timer. */
  const PollIntervalMs: nat := 3000

  /** The shortest reply the parser reads. */
  const MinReplyLength: nat := 34

  datatype BatteryReading = BatteryReading(
    current: int16, percentage: byte, isWired: bool, isCharging: bool, isBatteryAssisting: bool)

  /** The state a reply reports; replies shorter than 34 bytes report nothing. */
  function ReadBattery(frame: seq<byte>): (r: Option<BatteryReading>)
    ensures r.Some? <==> |frame| >= MinReplyLength
    ensures r.Some? ==> (r.value.current - BigEndian(frame[6], frame[7])) % 0x1_0000 == 0
    ensures r.Some? ==> (r.value.current < 0 <==> frame[6] >= 0x80)
    ensures r.Some? ==> (r.value.current == 0 <==> frame[6] == 0 && frame[7] == 0)
    ensures r.Some? ==> r.value.percentage == frame[23] && (r.value.isWired <==> frame[24] % 2 == 1)
    ensures r.Some? ==> (r.value.isCharging <==> r.value.current > 0)
    ensures r.Some? ==> (r.value.isBatteryAssisting <==> r.value.isWired && r.value.current < 0)
    ensures r.Some? ==> Consistent(r.value.isWired, r.value.isCharging, r.value.isBatteryAssisting)
  {
    if |frame| < MinReplyLength then None
    else
      var current := ToInt16(BigEndian(frame[6], frame[7]));
      var wired := frame[24] % 2 == 1;
      Some(BatteryReading(current, frame[23], wired, current > 0, wired && current < 0))
  }

  /** The derived flags never contradict each other: charging and assisting exclude each other, and assisting needs a supply. */
  predicate Consistent(isWired: bool, isCharging: bool, isBatteryAssisting: bool) {
    && !(isCharging && isBatteryAssisting)
    && (isBatteryAssisting ==> isWired)
  }

  /** `FF 38` is -200, a 2 A discharge: with the supply wired that is assisting, not charging; `00 C8` is a 2 A charge. */
  lemma CurrentExamples(frame: seq<byte>)
    requires |frame| >= MinReplyLength && frame[24] == 1
    ensures frame[6] == 0xFF && frame[7] == 0x38 ==>
              ReadBattery(frame).value.current == -200 && ReadBattery(frame).value.isBatteryAssisting
              && !ReadBattery(frame).value.isCharging
    ensures frame[6] == 0x00 && frame[7] == 0xC8 ==>
              ReadBattery(frame).value.current == 200 && ReadBattery(frame).value.isCharging
              && !ReadBattery(frame).value.isBatteryAssisting
  {
  }

  /** Every battery frame the demultiplexer publishes is long enough to be read. */
  lemma DemuxedBatteryFramesAreRead(crc: CrcFn, buf: seq<byte>)
    ensures forall e :: e in Drain(crc, buf).events && e.BatteryFrame? ==> ReadBattery(e.bytes).Some?
  {
    DrainWellFormed(crc, buf);
  }

  /** The pack's own query is not a battery reply: it is too short to be read. */
  lemma QueryIsNotAReply()
    ensures ReadBattery(CreateBatteryQuery()).None?
  {
  }

  class BatteryService {
    var percentage: int
    var isOnline: bool
    var isWired: bool
    var isCharging: bool
    var isBatteryAssisting: bool
    var lastReceived: Option<int>
    var timerEnabled: bool
    /** The frames handed to the serial port, oldest first. */
    ghost var sent: seq<seq<byte>>

    /** Never online without a reply on record, and the flags consistent. */
    predicate Valid()
      reads this
    {
      && (isOnline ==> lastReceived.Some?)
      && Consistent(isWired, isCharging, isBatteryAssisting)
    }

    constructor()
      ensures Valid()
      ensures percentage == 0 && !isOnline && !isWired && !isCharging && !isBatteryAssisting
      ensures lastReceived.None? && !timerEnabled && sent == []
    {
      percentage, isOnline, isWired, isCharging, isBatteryAssisting := 0, false, false, false, false;
      lastReceived, timerEnabled := None, false;
      sent := [];
    }

    /** Starting a stopped monitor queries at once; starting a running one does nothing. */
    method Start()
      requires Valid()
      modifies this`timerEnabled, this`sent
      ensures Valid() && timerEnabled
      ensures sent == old(sent) + if old(timerEnabled) then [] else [CreateBatteryQuery()]
    {
      if !timerEnabled {
        timerEnabled := true;
        SendQuery();
      }
    }

    /** Stopping always takes the link offline; the last readings stay. */
    method Stop()
      requires Valid()
      modifies this`timerEnabled, this`isOnline
      ensures Valid() && !timerEnabled && !isOnline
    {
      timerEnabled := false;
      isOnline := false;
    }

    /** A poll tick at `now`: the watchdog check, then a query, every time. */
    method OnPollingTimerElapsed(now: int)
      requires Valid()
      modifies this`isOnline, this`sent
      ensures Valid()
      ensures isOnline == AfterTick(old(isOnline), lastReceived, now)
      ensures sent == old(sent) + [CreateBatteryQuery()]
    {
      if isOnline && now - lastReceived.value > MaxOfflineMs {
        isOnline := false;
      }
      SendQuery();
    }

    method SendQuery()
      modifies this`sent
      ensures sent == old(sent) + [CreateBatteryQuery()]
    {
      sent := sent + [CreateBatteryQuery()];
    }

    /** A reply received at `now`: a long enough one replaces every reading and stamps the link online; a short one is ignored. */
    method ParseBatteryData(frame: seq<byte>, now: int)
      requires Valid()
      modifies this`percentage, this`isWired, this`isCharging, this`isBatteryAssisting,
               this`isOnline, this`lastReceived
      ensures Valid()
      ensures ReadBattery(frame).None? ==>
                && percentage == old(percentage) && isWired == old(isWired)
                && isCharging == old(isCharging) && isBatteryAssisting == old(isBatteryAssisting)
                && isOnline == old(isOnline) && lastReceived == old(lastReceived)
      ensures ReadBattery(frame).Some? ==>
                var r := ReadBattery(frame).value;
                && percentage == r.percentage && isWired == r.isWired
                && isCharging == r.isCharging && isBatteryAssisting == r.isBatteryAssisting
                && isOnline && lastReceived == Some(now)
    {
      if |frame| < MinReplyLength {
        return;
      }
      var currRaw := ToInt16(frame[6] as int * 256 + frame[7]);
      percentage := frame[23];
      var mosStatus := frame[24];
      var chargeMosOpen := mosStatus % 2 == 1;
      isWired := chargeMosOpen;
      isCharging := currRaw > 0;
      isBatteryAssisting := isWired && currRaw < 0;
      isOnline := true;
      lastReceived := Some(now);
    }
  }
}
