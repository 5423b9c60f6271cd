/**
 The BMP581 register map: one constructor per register the driver names,
 the fixed 8-bit address of each, and the facts about the layout that the
 rest of the driver relies on (distinct addresses, contiguous sample blocks,
 little-endian two-register fields).
 */
module Registers {

  /** One byte on the wire. Bit-vectors so that masks are real bitwise operations. */
  type Byte = bv8

  datatype Option<T> = None | Some(value: T)

  /** The registers of the sensor, in the order the header lists them. */
  datatype Reg =
    | ChipId | RevId | ChipStatus | DriveConfig | IntConfig | IntSource
    | FifoConfig | FifoCount | FifoSel
    | TempDataXlsb | TempDataLsb | TempDataMsb
    | PressDataXlsb | PressDataLsb | PressDataMsb
    | IntStatus | Status | FifoData | NvmAddr | NvmDataLsb | NvmDataMsb
    | DspConfig | DspIir | OorThrPLsb | OorThrPMsb | OorRange | OorConfig
    | OsrConfig | OdrConfig | OsrEff | Cmd

  /** Bus addresses of the sensor: primary, and secondary (SDO pulled high). */
  const I2cAddrPrimary: Byte := 0x46
  const I2cAddrSecondary: Byte := 0x47

  /** Width of a register address on the bus, in bytes. */
  const RegisterSize: Byte := 1

  /** Every register, each exactly once. */
  const AllRegs: seq<Reg> :=
    [ ChipId, RevId, ChipStatus, DriveConfig, IntConfig, IntSource,
      FifoConfig, FifoCount, FifoSel,
      TempDataXlsb, TempDataLsb, TempDataMsb,
      PressDataXlsb, PressDataLsb, PressDataMsb,
      IntStatus, Status, FifoData, NvmAddr, NvmDataLsb, NvmDataMsb,
      DspConfig, DspIir, OorThrPLsb, OorThrPMsb, OorRange, OorConfig,
      OsrConfig, OdrConfig, OsrEff, Cmd ]

  /** The device address of a register. The command register sits at the
      top of the map and every other register strictly below it. */
  function Address(r: Reg): (a: Byte)
    ensures 0x01 <= a <= 0x7E
    ensures a == 0x7E <==> r == Cmd
  {
    match r
    case ChipId => 0x01
    case RevId => 0x02
    case ChipStatus => 0x11
    case DriveConfig => 0x13
    case IntConfig => 0x14
    case IntSource => 0x15
    case FifoConfig => 0x16
    case FifoCount => 0x17
    case FifoSel => 0x18
    case TempDataXlsb => 0x1D
    case TempDataLsb => 0x1E
    case TempDataMsb => 0x1F
    case PressDataXlsb => 0x20
    case PressDataLsb => 0x21
    case PressDataMsb => 0x22
    case IntStatus => 0x27
    case Status => 0x28
    case FifoData => 0x29
    case NvmAddr => 0x2B
    case NvmDataLsb => 0x2C
    case NvmDataMsb => 0x2D
    case DspConfig => 0x30
    case DspIir => 0x31
    case OorThrPLsb => 0x32
    case OorThrPMsb => 0x33
    case OorRange => 0x34
    case OorConfig => 0x35
    case OsrConfig => 0x36
    case OdrConfig => 0x37
    case OsrEff => 0x38
    case Cmd => 0x7E
  }

  /** The register below address 0x20 at `a`, if any. */
  function FromLowAddress(a: Byte): (r: Option<Reg>)
    ensures r.Some? ==> Address(r.value) == a
  {
    match a
    case 0x01 => Some(ChipId)
    case 0x02 => Some(RevId)
    case 0x11 => Some(ChipStatus)
    case 0x13 => Some(DriveConfig)
    case 0x14 => Some(IntConfig)
    case 0x15 => Some(IntSource)
    case 0x16 => Some(FifoConfig)
    case 0x17 => Some(FifoCount)
    case 0x18 => Some(FifoSel)
    case 0x1D => Some(TempDataXlsb)
    case 0x1E => Some(TempDataLsb)
    case 0x1F => Some(TempDataMsb)
    case _ => None
  }

  /** The register at or above address 0x20 at `a`, if any. */
  function FromHighAddress(a: Byte): (r: Option<Reg>)
    ensures r.Some? ==> Address(r.value) == a
  {
    match a
    case 0x20 => Some(PressDataXlsb)
    case 0x21 => Some(PressDataLsb)
    case 0x22 => Some(PressDataMsb)
    case 0x27 => Some(IntStatus)
    case 0x28 => Some(Status)
    case 0x29 => Some(FifoData)
    case 0x2B => Some(NvmAddr)
    case 0x2C => Some(NvmDataLsb)
    case 0x2D => Some(NvmDataMsb)
    case 0x30 => Some(DspConfig)
    case 0x31 => Some(DspIir)
    case 0x32 => Some(OorThrPLsb)
    case 0x33 => Some(OorThrPMsb)
    case 0x34 => Some(OorRange)
    case 0x35 => Some(OorConfig)
    case 0x36 => Some(OsrConfig)
    case 0x37 => Some(OdrConfig)
    case 0x38 => Some(OsrEff)
    case 0x7E => Some(Cmd)
    case _ => None
  }

  /** The register at a device address, if the map names one. */
  function FromAddress(a: Byte): (r: Option<Reg>)
    ensures r.Some? ==> Address(r.value) == a
  {
    if a < 0x20 then FromLowAddress(a) else FromHighAddress(a)
  }

  /** Decoding the address of a register gives that register back. */
  lemma AddressRoundTrip(r: Reg)
    ensures FromAddress(Address(r)) == Some(r)
  {
  }

  /** No two registers share an address. */
  lemma AddressInjective()
    ensures forall r1: Reg, r2: Reg :: Address(r1) == Address(r2) ==> r1 == r2
  {
    forall r1: Reg, r2: Reg | Address(r1) == Address(r2)
      ensures r1 == r2
    {
      AddressRoundTrip(r1);
      AddressRoundTrip(r2);
    }
  }

  /** An address the decoder rejects is the address of no register. */
  lemma FromAddressComplete(a: Byte)
    ensures FromAddress(a).None? <==> forall reg: Reg :: Address(reg) != a
  {
    forall reg: Reg
      ensures Address(reg) == a ==> FromAddress(a) == Some(reg)
    {
      AddressRoundTrip(reg);
    }
  }

  /** The position of a register in `AllRegs`. */
  function Index(r: Reg): (i: nat)
    ensures i < |AllRegs| && AllRegs[i] == r
  {
    match r
    case ChipId => 0
    case RevId => 1
    case ChipStatus => 2
    case DriveConfig => 3
    case IntConfig => 4
    case IntSource => 5
    case FifoConfig => 6
    case FifoCount => 7
    case FifoSel => 8
    case TempDataXlsb => 9
    case TempDataLsb => 10
    case TempDataMsb => 11
    case PressDataXlsb => 12
    case PressDataLsb => 13
    case PressDataMsb => 14
    case IntStatus => 15
    case Status => 16
    case FifoData => 17
    case NvmAddr => 18
    case NvmDataLsb => 19
    case NvmDataMsb => 20
    case DspConfig => 21
    case DspIir => 22
    case OorThrPLsb => 23
    case OorThrPMsb => 24
    case OorRange => 25
    case OorConfig => 26
    case OsrConfig => 27
    case OdrConfig => 28
    case OsrEff => 29
    case Cmd => 30
  }

  /** `AllRegs` lists every register, and has one entry per register. */
  lemma AllRegsComplete()
    ensures forall r: Reg :: r in AllRegs
    ensures |AllRegs| == 31
  {
    forall r: Reg
      ensures r in AllRegs
    {
      assert AllRegs[Index(r)] == r;
    }
  }

  /** The two 24-bit raw samples. */
  datatype Quantity = TempSample | PressSample

  /** The registers of a raw sample, least significant byte first. */
  function SampleRegs(q: Quantity): (regs: seq<Reg>)
    ensures |regs| == 3
    ensures forall i :: 0 < i < |regs| ==> Address(regs[i]) == Address(regs[i - 1]) + 1
  {
    match q
    case TempSample => [TempDataXlsb, TempDataLsb, TempDataMsb]
    case PressSample => [PressDataXlsb, PressDataLsb, PressDataMsb]
  }

  /** Temperature occupies 0x1D-0x1F and pressure continues right after it at 0x20-0x22. */
  lemma SampleBlocksAdjacent()
    ensures Address(SampleRegs(TempSample)[0]) == 0x1D
    ensures Address(SampleRegs(PressSample)[0]) == Address(SampleRegs(TempSample)[2]) + 1
    ensures Address(SampleRegs(PressSample)[2]) == 0x22
  {
  }

  /** The two 16-bit fields split over a pair of registers. */
  datatype WideField = OorThreshold | NvmData

  /** The (low, high) register pair of a 16-bit field: the low byte sits
      at the lower address, the high byte directly above it. */
  function WideRegs(f: WideField): (pair: (Reg, Reg))
    ensures Address(pair.1) == Address(pair.0) + 1
    ensures Address(pair.0) < Address(pair.1)
  {
    match f
    case OorThreshold => (OorThrPLsb, OorThrPMsb)
    case NvmData => (NvmDataLsb, NvmDataMsb)
  }

  /** The OOR threshold pair sits at 0x32/0x33 and the NVM data pair at 0x2C/0x2D. */
  lemma WideRegsAddresses()
    ensures Address(WideRegs(OorThreshold).0) == 0x32 && Address(WideRegs(OorThreshold).1) == 0x33
    ensures Address(WideRegs(NvmData).0) == 0x2C && Address(WideRegs(NvmData).1) == 0x2D
  {
  }

  /** The primary and secondary bus addresses differ only in bit 0. */
  lemma I2cAddressesDifferInLowBit()
    ensures I2cAddrPrimary ^ I2cAddrSecondary == 0x01
    ensures I2cAddrPrimary & 0xFE == I2cAddrSecondary & 0xFE
  {
  }
}
