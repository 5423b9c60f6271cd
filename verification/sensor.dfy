/**
 The passive descriptor of a bus-attached sensor: what it measures, in which
 unit, and how to reach it on the I2C bus.
 */
module Sensor {
  import opened Registers

  /** The physical quantity a sensor reports. */
  datatype SensorType = Temperature | Humidity | Pressure | Light | UvIntensity

  /** The unit of the reported quantity. */
  datatype DataUnit = DegreeCelsius | Percent | Pascal | Lux | Index

  /** An I2C sensor: its common attributes, its 7-bit bus address and the
      width in bytes of its register addresses. */
  datatype I2cSensor = I2cSensor(
    name: string,
    kind: SensorType,
    unit: DataUnit,
    busAddress: Byte,
    registerSize: Byte)
}
