# BMP581 power-on check and startup configuration

A Dafny model of the initialisation routine of the BMP581 pressure-sensor
driver, `vAPP_BMP581_init`, and of the sensor's register address map.

The driver reads five single-byte registers of the sensor into its register
snapshot: chip ID, revision, status, interrupt status and ODR_CONFIG. It then
applies two checks:

- an identity and readiness check: three whole-byte equalities, plus a bit-mask
  test on the status byte;
- a standby check on ODR_CONFIG.

Only when both pass does it issue the six single-byte writes of the startup
configuration, in a fixed order with fixed values.

The model is pure and functional:

- `Registers`: the register map.
  - The datatype `Reg` has one constructor per register.
  - `Address` maps a register to its 8-bit device address, and `FromAddress` decodes it.
  - It also holds the two bus addresses and the one-byte register width.
- `Sensor`: the passive sensor descriptor (name, quantity, unit, bus address, register width).
- `Bus`: the transport, reduced to the ordered list of requests it is given.
  - `Event` is either `Read(bus, reg, len)` or `Write(bus, reg, value, len)`.
  - A sensor's register file is a function `Device` from register to byte, which answers every read.
  - `Replay` computes the register file after a list of requests has landed.
- `Bmp581`: the routine itself.
  - `Init(k, sensor, snap, dev)` gives the new snapshot, the request trace and the branch taken (`Outcome`).
  - The snapshot `sBMP581Sensor_t` is a map from register to byte, keyed by the register a field is named after.
- `InitProperties`: properties relating initialisation to the bus, to the sensor's register file and to the snapshot.

The comparison values `BMP581_I2C_CHIP_ID`, `BMP581_I2C_REV_ID`,
`BMP581_I2C_INT_STATUS_READY`, `BMP581_I2C_STATUS_READY` and
`ceAPP_BMP581_STANDBY` are defined in none of the repository files this model
is built from.

- They are the parameter `Identity` of `Init`, so every property holds for every choice of them.
- `ScenarioIdentity` holds the example comparison values that the concrete scenario lemmas fix: chip ID 0x50, revision 0x32, interrupt-status pattern 0x10, ready mask 0x06 and standby ODR_CONFIG 0x00. It is used by nothing else.

The routine reads register STATUS (0x28) into the snapshot field
`u8_CHIP_STATUS`, not into `u8_STATUS` (Src/app/app_bmp581.c:83). The model
keeps this: `InitReads` stores `Status` into the `ChipStatus` field, and the
`Status` field of the snapshot is left untouched.

## Model

| member | source | states |
|---|---|---|
| Registers.Address | Inc/app/app_bmp581.h:31-61 | Every register address lies in 0x01..0x7E, and 0x7E is the command register's alone. |
| Registers.FromAddress | Inc/app/app_bmp581.h:31-61 | Decoding an address yields only a register that sits at that address. |
| Registers.AddressRoundTrip | Inc/app/app_bmp581.h:31-61 | Decoding the address of any register gives that register back. |
| Registers.AddressInjective | Inc/app/app_bmp581.h:31-61 | No two register constants share an address. |
| Registers.FromAddressComplete | Inc/app/app_bmp581.h:31-61 | The decoder rejects an address exactly when no register constant has it. |
| Registers.AllRegsComplete | Inc/app/app_bmp581.h:31-61 | The list of the map's 31 registers contains every register. |
| Registers.SampleRegs | Inc/app/app_bmp581.h:40-45 | Each 24-bit sample occupies three registers at consecutive addresses, XLSB first. |
| Registers.SampleBlocksAdjacent | Inc/app/app_bmp581.h:40-45 | Temperature sits at 0x1D-0x1F, and pressure follows it directly, ending at 0x22. |
| Registers.WideRegs | Inc/app/app_bmp581.h:50-55 | For the NVM data and OOR threshold fields, the high byte sits one address above the low byte. |
| Registers.WideRegsAddresses | Inc/app/app_bmp581.h:50-55 | The OOR threshold pair is 0x32 (low) and 0x33 (high); the NVM data pair is 0x2C (low) and 0x2D (high). |
| Registers.I2cAddressesDifferInLowBit | Inc/app/app_bmp581.h:28-29 | The primary and secondary bus addresses differ only in bit 0. |
| Bus.Replay | Src/app/app_bmp581.c:97-111 | After a trace lands, a register no write touches keeps its value, and a register takes the value of the last write to it. |
| Bmp581.ReadRequests | Src/app/app_bmp581.c:81-85 | A list of reads goes out as one one-byte read request per entry, in list order, to the given bus address. |
| Bmp581.StoreReads | Src/app/app_bmp581.c:81-85 | Each read stores its register's byte into its field; no field outside the reads changes, and no field is lost. |
| Bmp581.IssueAll | Src/app/app_bmp581.c:97-111 | A write plan goes out as one one-byte write request per entry, in plan order, with the planned value. |
| Bmp581.InitReadsTrace | Src/app/app_bmp581.c:81-85 | The probe is five one-byte reads: CHIP_ID, REV_ID, STATUS, INT_STATUS, ODR_CONFIG, in that order. |
| Bmp581.InitReadsStore | Src/app/app_bmp581.c:81-85 | The probe fills the chip ID, revision, chip-status (from STATUS), interrupt-status and ODR fields, and nothing else. |
| Bmp581.StartupWritesIssued | Src/app/app_bmp581.c:97-111 | The startup plan goes out as exactly these six one-byte writes: OSR_CONFIG←0x40, ODR_CONFIG←0x00, FIFO_SEL←0x03, FIFO_CONFIG←0x20, INT_CONFIG←0x0E, INT_SOURCE←0x02. |
| Bmp581.GateOnReadBytes | Src/app/app_bmp581.c:88-95 | The identity check fails exactly when a whole-byte check differs or the status byte has no ready bit; the standby check fails exactly when identity passes and ODR_CONFIG is not standby. |
| Bmp581.Init | Src/app/app_bmp581.c:79-121 | The trace is the five reads, followed by the six startup writes exactly when both checks pass. The snapshot gains the five read bytes, and every other field is unchanged. |
| InitProperties.WritesOfInitTrace | Src/app/app_bmp581.c:81-111 | The writes of an initialisation trace are none after the probe alone, and exactly the startup sequence after it. |
| InitProperties.ProbeWritesNothing | Src/app/app_bmp581.c:81-85 | The probe issues no write. |
| InitProperties.StartupIsAllWrites | Src/app/app_bmp581.c:97-111 | Every request of the startup sequence is a write. |
| InitProperties.NoWriteUnlessStarted | Src/app/app_bmp581.c:88-120 | Some write is issued if and only if both checks pass, and the writes then are exactly the startup sequence. |
| InitProperties.InitTraceShape | Src/app/app_bmp581.c:81-111 | In every initialisation trace, the reads come first, the startup writes target distinct registers, and every request moves one byte to the same bus address. |
| InitProperties.ReadsPrecedeWrites | Src/app/app_bmp581.c:81-111 | No read follows a write in the trace of initialisation. |
| InitProperties.StartupTargetsDistinct | Src/app/app_bmp581.c:97-111 | The six startup writes go to six different registers. |
| InitProperties.RequestsUseDescriptor | Src/app/app_bmp581.c:62-66 | Every request of initialisation goes to the descriptor's bus address 0x46 and moves one byte. |
| InitProperties.AnyReadyBitSuffices | Src/app/app_bmp581.c:90-93 | With the other checks passing, a status byte carrying any single bit of the ready mask passes the identity check. |
| InitProperties.OneBitOffRejected | Src/app/app_bmp581.c:90-92 | A chip ID, revision or interrupt status one bit away from the expected byte is rejected, and then no write is issued. |
| InitProperties.DependsOnlyOnReadBytes | Src/app/app_bmp581.c:79-121 | Two runs whose five read bytes agree issue the same trace and take the same branch, whatever the snapshot and the other registers hold. |
| InitProperties.PowerOnSnapshot | Src/app/app_bmp581.c:60-85 | From the zero-initialised snapshot, every field is present afterwards, and every field that is not read into is still zero. |
| InitProperties.StartupLastWrites | Src/app/app_bmp581.c:97-111 | None of the six startup writes is overridden by a later one. |
| InitProperties.StartupValuesLand | Src/app/app_bmp581.c:97-111 | Once the startup trace lands, the six target registers hold the startup configuration. |
| InitProperties.StartupWritesOnlyTargets | Src/app/app_bmp581.c:97-111 | The startup trace writes to no register outside its six targets. |
| InitProperties.StartupFrame | Src/app/app_bmp581.c:97-111 | Once the startup trace lands, every register outside the six targets keeps its old value. |
| InitProperties.StartupLandsOnDevice | Src/app/app_bmp581.c:90-111 | When the five read bytes pass both checks, the sensor ends up holding the startup configuration in the six registers and its old value everywhere else. |
| InitProperties.ReadySensorStarts | Src/app/app_bmp581.c:79-121 | A sensor whose read bytes match `ScenarioIdentity` (status 0x06, ODR_CONFIG 0x00) is started with the full eleven-request sequence on bus address 0x46. |
| InitProperties.WrongChipIdNotStarted | Src/app/app_bmp581.c:88-120 | A sensor reporting chip ID 0x51 is rejected after the five reads, and no write is issued. |
| InitProperties.RunningSensorNotStarted | Src/app/app_bmp581.c:95-116 | A ready sensor whose ODR_CONFIG is not standby is left alone after the five reads. |

## Left out

- The `errAPP_BMP581_*` configuration and getter functions (Src/app/app_bmp581.c:130-429) have empty bodies. There is no behaviour to model, so none is invented.
- `fAPP_BMP581_getPressure`, `fAPP_BMP581_getTemperature` and `vAPP_BMP581_startMeasurements` are declared in Inc/app/app_bmp581.h:69-74. They exist only as stubs in the superseded draft Src/app/app_sensor_module.c: the two float getters return 0.0f (lines 60-61, 71-72), and `vAPP_BMP581_startMeasurements` has an empty body (line 115).
- The STM32 I2C/DMA layer (Src/hal/hal_i2c.c) is reduced to the requests it is given, in program order:
  - DMA completion, interrupts and bus errors are not modelled;
  - the read path shifts the bus address left by one bit while the write path does not (Src/hal/hal_i2c.c:236, 260). Requests carry the descriptor's 7-bit address as given.
- `vI2C_write_DMA` is neither declared nor defined in the files this model is built from. Its sibling `vI2C_write` (Src/hal/hal_i2c.c:232) takes the data through a pointer, `uint8_t* p_pu8Data`. The calls at Src/app/app_bmp581.c:97-111 pass a literal byte instead. The model writes that literal byte to the register.
- `Bus.Replay` models a register as plain storage. Read-to-clear status registers and the sensor's own reaction to the configuration are not modelled.
- The routine reports no error on either failed check (both branches are TODO). The model records which branch was taken in `Outcome`, and nothing else is returned.
- Src/app/app_sensor_module.c is a superseded draft. Its init is empty, and its getters return constants (0.0f or 0u, lines 60-106). Its descriptor type `I2CSensor` (Inc/app/app_sensor_module.h:48-54) is not modelled. `Sensor.I2cSensor` follows instead the descriptor that Src/app/app_bmp581.c:62-66 fills and Src/hal/hal_i2c.c reads: common attributes, bus address and register size.
- Bmp581.Init: each read is taken to complete, successfully, before the next statement runs. This is the synchronous reading that the comment at Src/app/app_bmp581.c:80 states. As written, `vI2C_read` (Src/hal/hal_i2c.c:256-267) only starts a DMA transfer, does not wait for it, and discards its status. So the C may compare snapshot fields that still hold their old (zero) values. The model does not capture that race or a failed read.
- InitProperties.StartupLandsOnDevice: likewise takes every startup write to land, in order and without error. The transport's write path (`vI2C_write`, Src/hal/hal_i2c.c:232-243) only starts a DMA transfer and ignores its status. `vI2C_write_DMA` itself is not part of this model.
- The board bring-up files (app_main.c, hal_mpu.c, hal_dma.c, hal_gpio.c and the clock, GPIO, MPU and SPI headers) hold no decision logic.
- Two naming mismatches are not modelled as behaviour:
  - the descriptor uses `BMP581_I2C_ADDR_PRIM` while the header defines `BMP5_I2C_ADDR_PRIM`. The model takes the header's value 0x46;
  - the `vI2C_transmit` and `vI2C_receive` prototypes (Inc/hal/hal_i2c.h:34-35) do not match their definitions.
- Bus.Writes: states only that its result is a list of writes no longer than the trace. What it selects is pinned down by `WritesAppend`, `WritesOfReads` and `WritesOfWrites`.
