/**
 Power-on check and startup configuration of the BMP581 driver.

 Initialisation reads five registers into the driver's register snapshot,
 checks the sensor's identity and readiness, checks that it sits in standby,
 and only then issues the six writes of the startup configuration. The bus is
 seen through the requests issued on it (`Bus.Event`); the sensor is the
 register file (`Bus.Device`) that answers the reads.
 */
module Bmp581 {
  import opened Registers
  import opened Bus
  import Sensor

  /** The values the power-on check compares against: expected chip ID and
      revision, the interrupt-status pattern of a ready sensor, the mask of
      ready bits in the status register, and the ODR_CONFIG value of standby. */
  datatype Identity = Identity(
    chipId: Byte,
    revId: Byte,
    intStatusReady: Byte,
    statusReadyMask: Byte,
    standby: Byte)

  /** Example comparison values fixed by the scenario lemmas: chip ID 0x50,
      revision 0x32, interrupt-status pattern 0x10, ready mask 0x06 and
      standby ODR_CONFIG 0x00. */
  const ScenarioIdentity: Identity := Identity(0x50, 0x32, 0x10, 0x06, 0x00)

  /** The one sensor this driver talks to. */
  const Descriptor: Sensor.I2cSensor :=
    Sensor.I2cSensor("BMP581", Sensor.Pressure, Sensor.Pascal, I2cAddrPrimary, RegisterSize)

  /** The driver's copy of the sensor's registers: the field named after a
      register, keyed by that register. */
  type Snapshot = map<Reg, Byte>

  /** The snapshot at start-up: every field present and zero. */
  const ZeroSnapshot: Snapshot := map r | r in AllRegs :: 0

  /** A one-byte read of register `reg` stored into snapshot field `field`. */
  datatype ReadStep = ReadStep(reg: Reg, field: Reg)

  /** The reads of initialisation, in order. The status register is stored
      into the chip-status field. */
  const InitReads: seq<ReadStep> := [
    ReadStep(ChipId, ChipId),
    ReadStep(RevId, RevId),
    ReadStep(Status, ChipStatus),
    ReadStep(IntStatus, IntStatus),
    ReadStep(OdrConfig, OdrConfig)
  ]

  /** The snapshot fields initialisation overwrites. */
  const InitFields: set<Reg> := {ChipId, RevId, ChipStatus, IntStatus, OdrConfig}

  /** A one-byte write of `value` to register `reg`. */
  datatype RegWrite = RegWrite(reg: Reg, value: Byte)

  /** The startup configuration, in the order it must reach the sensor:
      pressure measurement on, fastest output data rate, FIFO frames with
      pressure and temperature, FIFO stop-on-full, interrupt pin set-up,
      FIFO-full interrupt source. */
  const StartupWrites: seq<RegWrite> := [
    RegWrite(OsrConfig, 0x40),
    RegWrite(OdrConfig, 0x00),
    RegWrite(FifoSel, 0x03),
    RegWrite(FifoConfig, 0x20),
    RegWrite(IntConfig, 0x0E),
    RegWrite(IntSource, 0x02)
  ]

  /** The registers the startup configuration writes. */
  const StartupTargets: set<Reg> := {OsrConfig, OdrConfig, FifoSel, FifoConfig, IntConfig, IntSource}

  /** Which branch initialisation took. */
  datatype Outcome =
    | Started           // both checks passed; the startup writes were issued
    | IdentityRejected  // identity or readiness check failed
    | NotStandby        // identity fine, but the sensor was not in standby

  datatype InitResult = InitResult(snapshot: Snapshot, trace: seq<Event>, outcome: Outcome)

  /** The snapshot fields a list of reads stores into. */
  function Fields(steps: seq<ReadStep>): set<Reg>
  {
    if steps == [] then {} else {steps[0].field} + Fields(steps[1..])
  }

  /** A field no read of the list names is not among its fields. */
  lemma {:induction false} FieldsOnlyNamed(steps: seq<ReadStep>, r: Reg)
    requires forall i :: 0 <= i < |steps| ==> steps[i].field != r
    ensures r !in Fields(steps)
  {
    if steps != [] {
      FieldsOnlyNamed(steps[1..], r);
    }
  }

  /** No two reads of the list store into the same field. */
  predicate DistinctFields(steps: seq<ReadStep>)
  {
    forall i, j :: 0 <= i < j < |steps| ==> steps[i].field != steps[j].field
  }

  /** The requests for the reads of `steps`, in order, to the sensor at `bus`. */
  function ReadRequests(steps: seq<ReadStep>, bus: Byte): (t: seq<Event>)
    ensures |t| == |steps|
    ensures forall i :: 0 <= i < |steps| ==> t[i] == Read(bus, steps[i].reg, 1)
  {
    if steps == [] then []
    else [Read(bus, steps[0].reg, 1)] + ReadRequests(steps[1..], bus)
  }

  /** The snapshot after the reads of `steps` land, each storing the byte its
      register holds into its field; fields no read names keep their value. */
  function StoreReads(steps: seq<ReadStep>, snap: Snapshot, dev: Device): (s: Snapshot)
    requires DistinctFields(steps)
    ensures s.Keys == snap.Keys + Fields(steps)
    ensures forall i :: 0 <= i < |steps| ==>
              steps[i].field in s && s[steps[i].field] == dev(steps[i].reg)
    ensures forall r :: r in snap && r !in Fields(steps) ==> s[r] == snap[r]
  {
    if steps == [] then snap
    else
      var st := steps[0];
      FieldsOnlyNamed(steps[1..], st.field);
      StoreReads(steps[1..], snap[st.field := dev(st.reg)], dev)
  }

  /** The requests for the writes of `plan`, in order, to the sensor at `bus`. */
  function IssueAll(plan: seq<RegWrite>, bus: Byte): (t: seq<Event>)
    ensures |t| == |plan|
    ensures forall i :: 0 <= i < |plan| ==> t[i] == Write(bus, plan[i].reg, plan[i].value, 1)
  {
    if plan == [] then []
    else [Write(bus, plan[0].reg, plan[0].value, 1)] + IssueAll(plan[1..], bus)
  }

  /** The identity and readiness check on the bytes read back: chip ID,
      revision and interrupt status must match whole, the status byte only
      needs one of the ready bits. */
  predicate Identified(k: Identity, chipId: Byte, revId: Byte, status: Byte, intStatus: Byte)
  {
    && chipId == k.chipId
    && revId == k.revId
    && intStatus == k.intStatusReady
    && status & k.statusReadyMask != 0
  }

  /** The requests initialisation issues before it decides anything: one-byte
      reads of chip ID, revision, status, interrupt status and ODR config. */
  function ProbeTrace(bus: Byte): seq<Event>
  {
    [ Read(bus, ChipId, 1),
      Read(bus, RevId, 1),
      Read(bus, Status, 1),
      Read(bus, IntStatus, 1),
      Read(bus, OdrConfig, 1) ]
  }

  /** The startup configuration as it appears on the bus: six one-byte writes. */
  function StartupTrace(bus: Byte): seq<Event>
  {
    [ Write(bus, OsrConfig, 0x40, 1),
      Write(bus, OdrConfig, 0x00, 1),
      Write(bus, FifoSel, 0x03, 1),
      Write(bus, FifoConfig, 0x20, 1),
      Write(bus, IntConfig, 0x0E, 1),
      Write(bus, IntSource, 0x02, 1) ]
  }

  /** What initialisation issues on the bus: the probe reads, followed by
      the startup writes when `started`. */
  function InitTrace(bus: Byte, started: bool): seq<Event>
  {
    ProbeTrace(bus) + (if started then StartupTrace(bus) else [])
  }

  /** The reads of initialisation store into five different fields. */
  lemma InitReadsDistinct()
    ensures DistinctFields(InitReads)
  {
  }

  /** The reads of initialisation fill the five fields of `InitFields`. */
  lemma InitReadsFields()
    ensures Fields(InitReads) == InitFields
  {
    assert InitReads[0].field == ChipId && InitReads[1].field == RevId;
    assert InitReads[2].field == ChipStatus && InitReads[3].field == IntStatus;
    assert InitReads[4].field == OdrConfig;
  }

  /** The reads of initialisation go out one byte each, in this order. */
  lemma InitReadsTrace(bus: Byte)
    ensures ReadRequests(InitReads, bus) == ProbeTrace(bus)
  {
    var t := ReadRequests(InitReads, bus);
    assert t[0] == Read(bus, ChipId, 1);
  }

  /** The reads of initialisation store the status register into the
      chip-status field, every other register into its own field, and leave
      every other field as it was. */
  lemma InitReadsStore(snap: Snapshot, dev: Device)
    ensures DistinctFields(InitReads)
    ensures var s := StoreReads(InitReads, snap, dev);
      && s.Keys == snap.Keys + InitFields
      && s[ChipId] == dev(ChipId)
      && s[RevId] == dev(RevId)
      && s[ChipStatus] == dev(Status)
      && s[IntStatus] == dev(IntStatus)
      && s[OdrConfig] == dev(OdrConfig)
      && forall r :: r in snap && r !in InitFields ==> s[r] == snap[r]
  {
    InitReadsDistinct();
    InitReadsFields();
    var s := StoreReads(InitReads, snap, dev);
    assert s[InitReads[0].field] == dev(InitReads[0].reg);
    assert s[InitReads[1].field] == dev(InitReads[1].reg);
    assert s[InitReads[2].field] == dev(InitReads[2].reg);
    assert s[InitReads[3].field] == dev(InitReads[3].reg);
    assert s[InitReads[4].field] == dev(InitReads[4].reg);
  }

  /** The startup plan goes out as six one-byte writes, in plan order. */
  lemma StartupWritesIssued(bus: Byte)
    ensures IssueAll(StartupWrites, bus) == StartupTrace(bus)
  {
    var t := IssueAll(StartupWrites, bus);
    assert t[0] == Write(bus, OsrConfig, 0x40, 1);
  }

  /** The branch initialisation takes on the snapshot it has just read:
      the identity check first, then the standby check. */
  function Gate(k: Identity, s: Snapshot): Outcome
    requires InitFields <= s.Keys
  {
    if !Identified(k, s[ChipId], s[RevId], s[ChipStatus], s[IntStatus]) then IdentityRejected
    else if s[OdrConfig] != k.standby then NotStandby
    else Started
  }

  /** The gate on a snapshot holding the bytes read from `dev`: rejected
      exactly when some identity or readiness check fails, not in standby
      exactly when those pass and ODR_CONFIG differs from standby. */
  lemma GateOnReadBytes(k: Identity, s: Snapshot, dev: Device)
    requires InitFields <= s.Keys
    requires s[ChipId] == dev(ChipId) && s[RevId] == dev(RevId) && s[ChipStatus] == dev(Status)
    requires s[IntStatus] == dev(IntStatus) && s[OdrConfig] == dev(OdrConfig)
    ensures Gate(k, s) == IdentityRejected <==>
              || dev(ChipId) != k.chipId
              || dev(RevId) != k.revId
              || dev(IntStatus) != k.intStatusReady
              || dev(Status) & k.statusReadyMask == 0
    ensures Gate(k, s) == NotStandby <==>
              Gate(k, s) != IdentityRejected && dev(OdrConfig) != k.standby
  {
  }

  /** Initialise the sensor described by `sensor`, starting from snapshot
      `snap`, against a sensor whose registers hold `dev`. */
  function Init(k: Identity, sensor: Sensor.I2cSensor, snap: Snapshot, dev: Device): (r: InitResult)
    // The five reads come first; the six startup writes follow them only
    // when both checks pass, and nothing else is issued.
    ensures r.trace == InitTrace(sensor.busAddress, r.outcome == Started)
    // Any failing identity or readiness check blocks the startup.
    ensures r.outcome == IdentityRejected <==>
              || dev(ChipId) != k.chipId
              || dev(RevId) != k.revId
              || dev(IntStatus) != k.intStatusReady
              || dev(Status) & k.statusReadyMask == 0
    // A sensor that is not in standby blocks it as well.
    ensures r.outcome == NotStandby <==>
              r.outcome != IdentityRejected && dev(OdrConfig) != k.standby
    // The snapshot gains the bytes read, and only those.
    ensures r.snapshot.Keys == snap.Keys + InitFields
    ensures && r.snapshot[ChipId] == dev(ChipId)
            && r.snapshot[RevId] == dev(RevId)
            && r.snapshot[ChipStatus] == dev(Status)
            && r.snapshot[IntStatus] == dev(IntStatus)
            && r.snapshot[OdrConfig] == dev(OdrConfig)
    ensures forall f :: f in snap && f !in InitFields ==> r.snapshot[f] == snap[f]
  {
    InitReadsDistinct();
    InitReadsStore(snap, dev);
    InitReadsTrace(sensor.busAddress);
    StartupWritesIssued(sensor.busAddress);
    var s := StoreReads(InitReads, snap, dev);
    GateOnReadBytes(k, s, dev);
    var outcome := Gate(k, s);
    var probe := ReadRequests(InitReads, sensor.busAddress);
    var startup := if outcome == Started then IssueAll(StartupWrites, sensor.busAddress) else [];
    InitResult(s, probe + startup, outcome)
  }
}
