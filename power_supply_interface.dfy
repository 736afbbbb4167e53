/**
 * The vendor-neutral records of the power supply interface: the status snapshot,
 * the capability descriptor, and the two optional operations whose default
 * implementation throws.
 */
module PowerSupply {
  import opened Wrappers

  datatype Vendor = TdkLambda | Keysight | RohdeSchwarz | Rigol | Siglent | Tti | BkPrecision | Tenma | Custom

  /** A point-in-time status snapshot. */
  datatype PowerSupplyStatus = PowerSupplyStatus(
    outputEnabled: bool,
    overVoltageProtection: bool,
    overCurrentProtection: bool,
    overPowerProtection: bool,
    overTemperature: bool,
    remoteSensing: bool,
    ccMode: bool,
    cvMode: bool)
  {
    /** Some flag of the snapshot is raised. */
    predicate AnyFlag() {
      outputEnabled || overVoltageProtection || overCurrentProtection || overPowerProtection
      || overTemperature || remoteSensing || ccMode || cvMode
    }
  }

  /** The snapshot a default-constructed status holds. */
  function DefaultStatus(): (s: PowerSupplyStatus)
    ensures !s.AnyFlag()
  {
    PowerSupplyStatus(false, false, false, false, false, false, false, false)
  }

  /** A static descriptor of what a supply can do. */
  datatype PowerSupplyCapabilities = PowerSupplyCapabilities(
    maxVoltage: real,
    maxCurrent: real,
    maxPower: real,
    numberOfChannels: int,
    supportsRemoteSensing: bool,
    supportsOVP: bool,
    supportsOCP: bool,
    supportsOPP: bool,
    supportsSequencing: bool)
  {
    /** Some optional feature is advertised. */
    predicate AnySupport() {
      supportsRemoteSensing || supportsOVP || supportsOCP || supportsOPP || supportsSequencing
    }
  }

  /** The descriptor a default-constructed capability record holds. */
  function DefaultCapabilities(): (c: PowerSupplyCapabilities)
    ensures c.maxVoltage == 0.0 && c.maxCurrent == 0.0 && c.maxPower == 0.0
    ensures c.numberOfChannels == 1
    ensures !c.AnySupport()
  {
    PowerSupplyCapabilities(0.0, 0.0, 0.0, 1, false, false, false, false, false)
  }

  const OvpNotSupportedMessage := "OVP not supported by this power supply"
  const ClearNotSupportedMessage := "Protection clear not supported by this power supply"

  /** The interface's own over-voltage protection setter: it throws for every argument. */
  function BaseSetOverVoltageProtection(voltage: real, channel: int): (r: Outcome<string>)
    ensures r.Fail? && r.error == OvpNotSupportedMessage
  {
    Fail(OvpNotSupportedMessage)
  }

  /** The interface's own protection clear: it always throws. */
  function BaseClearProtection(): (r: Outcome<string>)
    ensures r.Fail? && r.error == ClearNotSupportedMessage
  {
    Fail(ClearNotSupportedMessage)
  }
}
