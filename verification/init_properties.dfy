/**
 Properties of BMP581 initialisation that relate its trace to the bus, to the
 sensor's register file and to the driver's snapshot, stated over every
 sensor state and every choice of comparison values.
 */
module InitProperties {
  import opened Registers
  import opened Bus
  import opened Bmp581
  import Sensor

  /** The writes of an initialisation trace: none after the probe reads
      alone, the startup sequence after a successful check. */
  lemma WritesOfInitTrace(bus: Byte, started: bool)
    ensures Writes(InitTrace(bus, started)) == (if started then StartupTrace(bus) else [])
  {
    ProbeWritesNothing(bus);
    if started {
      StartupIsAllWrites(bus);
      WritesAppend(ProbeTrace(bus), StartupTrace(bus));
    } else {
      assert InitTrace(bus, started) == ProbeTrace(bus);
    }
  }

  /** The probe only reads. */
  lemma ProbeWritesNothing(bus: Byte)
    ensures Writes(ProbeTrace(bus)) == []
  {
    var t := ProbeTrace(bus);
    assert forall i :: 0 <= i < |t| ==> t[i].Read?;
    WritesOfReads(t);
  }

  /** The startup configuration only writes. */
  lemma StartupIsAllWrites(bus: Byte)
    ensures Writes(StartupTrace(bus)) == StartupTrace(bus)
  {
    var t := StartupTrace(bus);
    assert forall i :: 0 <= i < |t| ==> t[i].Write?;
    WritesOfWrites(t);
  }

  /** A write is issued exactly when both checks pass, and then the writes
      are precisely the startup sequence. */
  lemma NoWriteUnlessStarted(k: Identity, sensor: Sensor.I2cSensor, snap: Snapshot, dev: Device)
    ensures var r := Init(k, sensor, snap, dev);
      && (Writes(r.trace) == [] <==> r.outcome != Started)
      && (r.outcome == Started ==> Writes(r.trace) == StartupTrace(sensor.busAddress))
  {
    var r := Init(k, sensor, snap, dev);
    WritesOfInitTrace(sensor.busAddress, r.outcome == Started);
    assert |StartupTrace(sensor.busAddress)| == 6;
  }

  /** In an initialisation trace the reads all come first, the startup
      writes go to six different registers, and every request moves one
      byte to the same bus address. */
  lemma InitTraceShape(bus: Byte, started: bool)
    ensures var t := InitTrace(bus, started);
      && (forall i, j :: 0 <= i < j < |t| && t[i].Write? ==> t[j].Write?)
      && (forall i, j :: 5 <= i < j < |t| ==> t[i].reg != t[j].reg)
      && (forall i :: 0 <= i < |t| ==> t[i].bus == bus && t[i].len == 1)
  {
    var t := InitTrace(bus, started);
    forall i | 0 <= i < |t|
      ensures t[i] == if i < 5 then ProbeTrace(bus)[i] else StartupTrace(bus)[i - 5]
    {
    }
  }

  /** No read is issued after a write: the reads all come first. */
  lemma ReadsPrecedeWrites(k: Identity, sensor: Sensor.I2cSensor, snap: Snapshot, dev: Device)
    ensures var t := Init(k, sensor, snap, dev).trace;
      forall i, j :: 0 <= i < j < |t| && t[i].Write? ==> t[j].Write?
  {
    InitTraceShape(sensor.busAddress, Init(k, sensor, snap, dev).outcome == Started);
  }

  /** The six startup writes go to six different registers. */
  lemma StartupTargetsDistinct(k: Identity, sensor: Sensor.I2cSensor, snap: Snapshot, dev: Device)
    ensures var t := Init(k, sensor, snap, dev).trace;
      forall i, j :: 5 <= i < j < |t| ==> t[i].reg != t[j].reg
  {
    InitTraceShape(sensor.busAddress, Init(k, sensor, snap, dev).outcome == Started);
  }

  /** Every request of initialisation moves one byte and goes to the bus
      address of the one BMP581 descriptor, the primary address 0x46. */
  lemma RequestsUseDescriptor(k: Identity, snap: Snapshot, dev: Device)
    ensures var t := Init(k, Descriptor, snap, dev).trace;
      forall i :: 0 <= i < |t| ==> t[i].bus == 0x46 && t[i].len == 1
  {
    InitTraceShape(Descriptor.busAddress, Init(k, Descriptor, snap, dev).outcome == Started);
  }

  /** The status check is a mask test, not an equality: with the other
      checks passing, a status byte carrying any single one of the ready
      bits lets initialisation past the identity check. */
  lemma AnyReadyBitSuffices(k: Identity, snap: Snapshot, dev: Device, bit: nat)
    requires bit < 8
    requires k.statusReadyMask & (1 << bit) != 0
    requires dev(Status) == 1 << bit
    requires dev(ChipId) == k.chipId && dev(RevId) == k.revId && dev(IntStatus) == k.intStatusReady
    ensures Init(k, Descriptor, snap, dev).outcome != IdentityRejected
  {
  }

  /** The chip ID, revision and interrupt status checks are whole-byte
      equalities: a byte one bit away from the expected one is rejected. */
  lemma OneBitOffRejected(k: Identity, snap: Snapshot, dev: Device, bit: nat)
    requires bit < 8
    requires || dev(ChipId) == k.chipId ^ (1 << bit)
             || dev(RevId) == k.revId ^ (1 << bit)
             || dev(IntStatus) == k.intStatusReady ^ (1 << bit)
    ensures Init(k, Descriptor, snap, dev).outcome == IdentityRejected
    ensures Writes(Init(k, Descriptor, snap, dev).trace) == []
  {
    assert (1 as Byte) << bit != 0;
    NoWriteUnlessStarted(k, Descriptor, snap, dev);
  }

  /** What initialisation issues and which branch it takes depend only on the
      five bytes it reads: not on the snapshot it starts from, and not on any
      other register of the sensor. */
  lemma DependsOnlyOnReadBytes(k: Identity, sensor: Sensor.I2cSensor,
                               snap1: Snapshot, snap2: Snapshot, dev1: Device, dev2: Device)
    requires dev1(ChipId) == dev2(ChipId) && dev1(RevId) == dev2(RevId)
    requires dev1(Status) == dev2(Status) && dev1(IntStatus) == dev2(IntStatus)
    requires dev1(OdrConfig) == dev2(OdrConfig)
    ensures Init(k, sensor, snap1, dev1).trace == Init(k, sensor, snap2, dev2).trace
    ensures Init(k, sensor, snap1, dev1).outcome == Init(k, sensor, snap2, dev2).outcome
  {
  }

  /** From the zero-initialised snapshot, initialisation leaves every field
      it does not read into at zero. */
  lemma PowerOnSnapshot(k: Identity, sensor: Sensor.I2cSensor, dev: Device)
    ensures var s := Init(k, sensor, ZeroSnapshot, dev).snapshot;
      && (forall r: Reg :: r in s)
      && (forall r: Reg :: r !in InitFields ==> s[r] == 0)
  {
    AllRegsComplete();
  }

  /** A register file holding the startup configuration in the six
      registers it writes. */
  predicate HoldsStartupConfig(d: Device)
  {
    && d(OsrConfig) == 0x40
    && d(OdrConfig) == 0x00
    && d(FifoSel) == 0x03
    && d(FifoConfig) == 0x20
    && d(IntConfig) == 0x0E
    && d(IntSource) == 0x02
  }

  /** Once the started trace lands, the six registers the startup
      configuration writes hold its values. */
  lemma StartupValuesLand(bus: Byte, dev: Device)
    ensures HoldsStartupConfig(Replay(dev, InitTrace(bus, true)))
  {
    StartupLastWrites(bus);
  }

  /** Each of the six startup writes is the last one to its register. */
  lemma StartupLastWrites(bus: Byte)
    ensures var t := InitTrace(bus, true);
      && |t| == 11
      && LastWriteAt(t, 5) && LastWriteAt(t, 6) && LastWriteAt(t, 7)
      && LastWriteAt(t, 8) && LastWriteAt(t, 9) && LastWriteAt(t, 10)
  {
    StartedTraceLiteral(bus);
  }

  /** The startup sequence writes to no register outside its six targets. */
  lemma StartupWritesOnlyTargets(bus: Byte, r: Reg)
    requires r !in StartupTargets
    ensures var t := InitTrace(bus, true);
      forall i :: 0 <= i < |t| && t[i].Write? ==> t[i].reg != r
  {
    var t := InitTrace(bus, true);
    StartedTraceLiteral(bus);
    forall i | 0 <= i < |t| && t[i].Write?
      ensures t[i].reg != r
    {
      assert 5 <= i <= 10;
    }
  }

  /** Once the started trace lands, every register outside the six startup
      targets still holds the value it had before. */
  lemma StartupFrame(bus: Byte, dev: Device)
    ensures var d := Replay(dev, InitTrace(bus, true));
      forall r :: r !in StartupTargets ==> d(r) == dev(r)
  {
    var d := Replay(dev, InitTrace(bus, true));
    forall r: Reg
      ensures r !in StartupTargets ==> d(r) == dev(r)
    {
      if r !in StartupTargets {
        StartupWritesOnlyTargets(bus, r);
      }
    }
  }

  /** When the bytes read pass both checks, the sensor ends up holding the
      startup configuration in the six registers written and its old values
      in every other register. */
  lemma StartupLandsOnDevice(k: Identity, sensor: Sensor.I2cSensor, snap: Snapshot, dev: Device)
    requires dev(ChipId) == k.chipId && dev(RevId) == k.revId && dev(IntStatus) == k.intStatusReady
    requires dev(Status) & k.statusReadyMask != 0
    requires dev(OdrConfig) == k.standby
    ensures var d := Replay(dev, Init(k, sensor, snap, dev).trace);
      && HoldsStartupConfig(d)
      && forall r :: r !in StartupTargets ==> d(r) == dev(r)
  {
    assert Init(k, sensor, snap, dev).outcome == Started;
    StartupValuesLand(sensor.busAddress, dev);
    StartupFrame(sensor.busAddress, dev);
  }

  /** A freshly powered BMP581 in standby is started with the full startup
      sequence, sent to the primary bus address. */
  lemma ReadySensorStarts(snap: Snapshot, dev: Device)
    requires dev(ChipId) == 0x50 && dev(RevId) == 0x32 && dev(Status) == 0x06
    requires dev(IntStatus) == 0x10 && dev(OdrConfig) == 0x00
    ensures var r := Init(ScenarioIdentity, Descriptor, snap, dev);
      && r.outcome == Started
      && r.trace == [
           Read(0x46, ChipId, 1), Read(0x46, RevId, 1), Read(0x46, Status, 1),
           Read(0x46, IntStatus, 1), Read(0x46, OdrConfig, 1),
           Write(0x46, OsrConfig, 0x40, 1), Write(0x46, OdrConfig, 0x00, 1),
           Write(0x46, FifoSel, 0x03, 1), Write(0x46, FifoConfig, 0x20, 1),
           Write(0x46, IntConfig, 0x0E, 1), Write(0x46, IntSource, 0x02, 1)]
  {
    assert Descriptor.busAddress == 0x46;
    assert Init(ScenarioIdentity, Descriptor, snap, dev).outcome == Started;
    StartedTraceLiteral(0x46);
  }

  /** The full initialisation sequence, written out request by request. */
  lemma StartedTraceLiteral(bus: Byte)
    ensures InitTrace(bus, true) == [
           Read(bus, ChipId, 1), Read(bus, RevId, 1), Read(bus, Status, 1),
           Read(bus, IntStatus, 1), Read(bus, OdrConfig, 1),
           Write(bus, OsrConfig, 0x40, 1), Write(bus, OdrConfig, 0x00, 1),
           Write(bus, FifoSel, 0x03, 1), Write(bus, FifoConfig, 0x20, 1),
           Write(bus, IntConfig, 0x0E, 1), Write(bus, IntSource, 0x02, 1)]
  {
  }

  /** A sensor reporting the wrong chip ID is never configured. */
  lemma WrongChipIdNotStarted(snap: Snapshot, dev: Device)
    requires dev(ChipId) == 0x51 && dev(RevId) == 0x32 && dev(Status) == 0x06
    requires dev(IntStatus) == 0x10 && dev(OdrConfig) == 0x00
    ensures var r := Init(ScenarioIdentity, Descriptor, snap, dev);
      && r.outcome == IdentityRejected
      && r.trace == [
           Read(0x46, ChipId, 1), Read(0x46, RevId, 1), Read(0x46, Status, 1),
           Read(0x46, IntStatus, 1), Read(0x46, OdrConfig, 1)]
  {
  }

  /** A ready sensor found outside standby is never configured. */
  lemma RunningSensorNotStarted(snap: Snapshot, dev: Device)
    requires dev(ChipId) == 0x50 && dev(RevId) == 0x32 && dev(Status) == 0x02
    requires dev(IntStatus) == 0x10 && dev(OdrConfig) == 0x01
    ensures var r := Init(ScenarioIdentity, Descriptor, snap, dev);
      && r.outcome == NotStandby
      && |r.trace| == 5
  {
  }
}
