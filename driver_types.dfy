/**
 * The validated driver description, as the port-pair code reads it. Only the
 * fields that resetLights, runControlSequence and configFromDriver read are
 * kept. Numbers are JavaScript numbers, hence `real`.
 */
module DriverTypes {
  import opened Wrappers

  /**
   * The color type lists only `blink`; the validator also lets `pulse` through.
   */
  datatype Modifier = Blink | Pulse

  datatype Color = Color(
    name: string,
    eventType: string,
    value: real,
    css: string,          // the `string` field: a CSS colour
    isDefault: bool,      // the `default` field
    modifier: Option<Modifier>)

  datatype InputDefaults = InputDefaults(
    channel: Option<real>,
    availableColors: Option<seq<Color>>)

  datatype InputDriver = InputDriver(
    number: real,
    channel: Option<real>,
    availableColors: Option<seq<Color>>)

  datatype InputGridDriver = InputGridDriver(
    id: string,
    inputDefaults: InputDefaults,
    inputs: seq<InputDriver>)

  /** A handshake 4-tuple `[status, data1, data2, channel]`. */
  datatype ControlSequenceMessage = ControlSequenceMessage(
    status: string, data1: real, data2: real, channel: real)

  datatype DeviceType = Normal | Adapter | FivePin

  datatype DeviceDriver = DeviceDriver(
    name: string,
    deviceType: DeviceType,
    inputGrids: seq<InputGridDriver>,
    controlSequence: Option<seq<ControlSequenceMessage>>,
    anonymous: Option<bool>)
}
