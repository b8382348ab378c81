/**
 * Fixed constants of the 13-byte control protocol and the byte codes of its
 * device addresses, link types and function codes.
 */
module ControlProtocol {
  import opened CSharp
  import opened Wrappers

  const FrameHeader: byte := 0x68
  const FrameFooter: byte := 0x16
  /** The declared length carried in byte 4 of every control frame. */
  const DataLength: byte := 0x0D
  const CommandTotalLength: nat := 13

  /** Start byte of the battery management protocol, which shares the serial link. */
  const BatteryStart: byte := 0xDD

  datatype DeviceAddr = PC | Controller | SyringePump | PeristalticPump | Broadcast {
    function Code(): byte {
      match this
      case PC => 0x55
      case Controller => 0xAA
      case SyringePump => 0xBB
      case PeristalticPump => 0xCC
      case Broadcast => 0x00
    }
  }

  datatype CommandType = PcToController | ControllerToSyringe | ControllerToPeristaltic | BroadcastLink {
    function Code(): byte {
      match this
      case PcToController => 0x01
      case ControllerToSyringe => 0x02
      case ControllerToPeristaltic => 0x03
      case BroadcastLink => 0x04
    }
  }

  datatype FunctionCode =
    | Handshake | HighVoltage | PeristalticSetting | SyringeSetting | ReturnPowerInfo
    | MultiChannelValve | Ignition | SteeringValve | Platform3D
  {
    function Code(): byte {
      match this
      case Handshake => 0x11
      case HighVoltage => 0x22
      case PeristalticSetting => 0x33
      case SyringeSetting => 0x44
      case ReturnPowerInfo => 0x66
      case MultiChannelValve => 0x77
      case Ignition => 0x88
      case SteeringValve => 0x99
      case Platform3D => 0xFF
    }
  }

  /** Reading a byte as a `DeviceAddr`: the enumerator with that code, or `None` for a byte that is no declared enumerator (a C# cast would accept it as an unnamed value). */
  function DeviceAddrOf(b: byte): (r: Option<DeviceAddr>)
    ensures r.Some? ==> r.value.Code() == b
    ensures forall a: DeviceAddr :: a.Code() == b ==> r == Some(a)
  {
    if b == 0x55 then Some(PC)
    else if b == 0xAA then Some(Controller)
    else if b == 0xBB then Some(SyringePump)
    else if b == 0xCC then Some(PeristalticPump)
    else if b == 0x00 then Some(Broadcast)
    else None
  }

  /** Reading a byte as a `CommandType`: the enumerator with that code, or `None` for a byte that is no declared enumerator (a C# cast would accept it as an unnamed value). */
  function CommandTypeOf(b: byte): (r: Option<CommandType>)
    ensures r.Some? ==> r.value.Code() == b
    ensures forall t: CommandType :: t.Code() == b ==> r == Some(t)
  {
    if b == 0x01 then Some(PcToController)
    else if b == 0x02 then Some(ControllerToSyringe)
    else if b == 0x03 then Some(ControllerToPeristaltic)
    else if b == 0x04 then Some(BroadcastLink)
    else None
  }

  /** Reading a byte as a `FunctionCode`: the enumerator with that code, or `None` for a byte that is no declared enumerator (a C# cast would accept it as an unnamed value). */
  function FunctionCodeOf(b: byte): (r: Option<FunctionCode>)
    ensures r.Some? ==> r.value.Code() == b
    ensures forall f: FunctionCode :: f.Code() == b ==> r == Some(f)
  {
    if b == 0x11 then Some(Handshake)
    else if b == 0x22 then Some(HighVoltage)
    else if b == 0x33 then Some(PeristalticSetting)
    else if b == 0x44 then Some(SyringeSetting)
    else if b == 0x66 then Some(ReturnPowerInfo)
    else if b == 0x77 then Some(MultiChannelValve)
    else if b == 0x88 then Some(Ignition)
    else if b == 0x99 then Some(SteeringValve)
    else if b == 0xFF then Some(Platform3D)
    else None
  }

  /** The codes of each enumeration are pairwise distinct. */
  lemma CodesInjective()
    ensures forall a: DeviceAddr, b: DeviceAddr :: a.Code() == b.Code() ==> a == b
    ensures forall s: CommandType, t: CommandType :: s.Code() == t.Code() ==> s == t
    ensures forall f: FunctionCode, g: FunctionCode :: f.Code() == g.Code() ==> f == g
  {
    forall a: DeviceAddr, b: DeviceAddr | a.Code() == b.Code() ensures a == b {
      assert DeviceAddrOf(a.Code()) == Some(a) && DeviceAddrOf(b.Code()) == Some(b);
    }
    forall s: CommandType, t: CommandType | s.Code() == t.Code() ensures s == t {
      assert CommandTypeOf(s.Code()) == Some(s) && CommandTypeOf(t.Code()) == Some(t);
    }
    forall f: FunctionCode, g: FunctionCode | f.Code() == g.Code() ensures f == g {
      assert FunctionCodeOf(f.Code()) == Some(f) && FunctionCodeOf(g.Code()) == Some(g);
    }
  }

  /**
   * The framing constants keep the three protocols on the link apart: the control
   * header differs from the battery start byte and from the footer, and the
   * declared length is the real frame length.
   */
  lemma FramingConstants()
    ensures FrameHeader != BatteryStart
    ensures FrameHeader != FrameFooter
    ensures DataLength as int == CommandTotalLength
    ensures FunctionCode.Platform3D.Code() == 0xFF && FunctionCode.ReturnPowerInfo.Code() == 0x66
  {
  }
}
