/**
 * Choosing the configuration variant for a device: from its driver's flags,
 * or from the `supported` discriminant of a previously saved configuration.
 * The variants' own constructors are not part of this model: each variant
 * records what it was built from.
 */
module HardwareConfig {
  import opened Wrappers
  import opened Json
  import opened DriverTypes

  /** How a SupportedDeviceConfig was obtained. */
  datatype SupportedSource =
    | FromDriver(siblingIndex: int, driver: DeviceDriver)   // SupportedDeviceConfig.fromDriver
    | SupportedFromJson(obj: J)                             // SupportedDeviceConfig.fromParsedJSON

  /** How an AnonymousDeviceConfig was obtained. */
  datatype AnonymousSource =
      /** `new AnonymousDeviceConfig(name, siblingIndex, new Map(), [])` */
    | Fresh(name: string, siblingIndex: int, entries: map<string, J>, items: seq<J>)
    | AnonymousFromJson(obj: J)                             // AnonymousDeviceConfig.fromParsedJSON

  datatype DeviceConfig =
    | Supported(supported: SupportedSource)
    | Anonymous(anonymous: AnonymousSource)
    | Adapter(name: string, siblingIndex: int)              // new AdapterDeviceConfig(name, siblingIndex)

  /** The sibling index a config was given, when it was built here rather than parsed. */
  function SiblingIndex(c: DeviceConfig): Option<int> {
    match c
    case Supported(FromDriver(i, _)) => Some(i)
    case Anonymous(Fresh(_, i, _, _)) => Some(i)
    case Adapter(_, i) => Some(i)
    case _ => None
  }

  /** The name of the device a config describes, when it was built here rather than parsed. */
  function Name(c: DeviceConfig): Option<string> {
    match c
    case Supported(FromDriver(_, d)) => Some(d.name)
    case Anonymous(Fresh(n, _, _, _)) => Some(n)
    case Adapter(n, _) => Some(n)
    case _ => None
  }

  /**
   * Anonymous when `driver.anonymous` is truthy, whatever the type; else
   * Adapter for an adapter driver; else Supported. The sibling index and the
   * driver's name pass through unchanged.
   */
  function ConfigFromDriver(siblingIndex: int, driver: DeviceDriver): (r: DeviceConfig)
    ensures r.Anonymous? <==> driver.anonymous == Some(true)
    ensures r.Adapter? <==> driver.anonymous != Some(true) && driver.deviceType == DeviceType.Adapter
    ensures r.Supported? <==> driver.anonymous != Some(true) && driver.deviceType != DeviceType.Adapter
    ensures SiblingIndex(r) == Some(siblingIndex)
    ensures Name(r) == Some(driver.name)
    ensures r.Anonymous? ==> r.anonymous.Fresh? && r.anonymous.entries == map[] && r.anonymous.items == []
    ensures r.Supported? ==> r.supported == FromDriver(siblingIndex, driver)
  {
    if driver.anonymous == Some(true) then Anonymous(Fresh(driver.name, siblingIndex, map[], []))
    else if driver.deviceType == DeviceType.Adapter then DeviceConfig.Adapter(driver.name, siblingIndex)
    else Supported(FromDriver(siblingIndex, driver))
  }

  /**
   * configFromJSON on an already parsed value: Supported when `supported` is
   * truthy, Anonymous otherwise, never Adapter. Reading `supported` of a
   * parsed `null` throws, which is the None result.
   */
  function ConfigFromJson(parsed: J): (r: Option<DeviceConfig>)
    ensures r.None? <==> parsed.JNull?
    ensures r.Some? ==> !r.value.Adapter?
    ensures r.Some? ==> (r.value.Supported? <==> Truthy(Prop(parsed, "supported")))
    ensures r.Some? ==> r.value == Supported(SupportedFromJson(parsed)) || r.value == Anonymous(AnonymousFromJson(parsed))
  {
    if parsed.JNull? then None
    else if Truthy(Prop(parsed, "supported")) then Some(Supported(SupportedFromJson(parsed)))
    else Some(Anonymous(AnonymousFromJson(parsed)))
  }
}
