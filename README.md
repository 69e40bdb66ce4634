# super-controller driver core, modelled in Dafny

This project models three parts of super-controller, a desktop application that
binds MIDI controllers to their on-device lights:

- **The driver-descriptor validator** (`src/helper/driver-validator.ts`). A device
  driver is an untrusted, parsed JSON document. The validator runs a fixed
  chain of guards over it and throws at the first one that fails. The chain
  covers the device fields and the style, each input grid and its inputs, each
  colour and its `fx` entries, the optional keyboard section and the optional
  `controlSequence` 4-tuples.
  - JSON values are the datatype `Json.J`.
  - The outcome is `Pass` or `Fail(Error(context, fault))`:
    - `fault` names the entity and field whose check threw. A JavaScript
      `TypeError` from dereferencing `null` or `undefined` is the fault `TypeError`.
    - `context` holds the prefixes that the `catch` handlers add
      (`Input grid: <id>: `, `Input Id[<n>]: `, `Keyboard driver: `).
  - Each validator is proved equivalent to a declarative predicate, so the
    validator passes exactly when the predicate holds.
  - Separate lemmas state which failure surfaces first and which prefix it carries.
- **The light-reset and handshake protocol**
  (`src/main/port-service/driven-port-pair.ts`).
  - `PortService.PortPair` is the held port. Its `sent` log records every message sent.
  - `PortService.DrivenPortPair.ResetLights` and `RunControlSequence` are loops.
    Each is proved to append exactly the message sequence given by a
    specification function (`ResetMessages`, `ControlSequenceMessages`).
  - Properties of those functions are proved as lemmas.
  - Messages are symbolic terms: a colour message and a status message.
  - The `Midi` module gives the status byte its MIDI 1.0 reading: the high nibble
    is the message type and the low nibble is the channel. Round-trip lemmas
    connect it to the handshake messages.
- **Config-variant dispatch** (`src/shared/hardware-config/index.ts`).
  `configFromDriver` and `configFromJSON` choose between the Supported,
  Anonymous and Adapter device configurations.

The validator is modelled as the code is written, including these behaviours:

- `validateInputGridDriver` tests `!input.hasOwnProperty('inputDefaults')`
  before it calls `validateInputDefaults`.
  - So a grid without defaults always ends in a `TypeError`.
  - A grid with defaults never has them validated.
- Per-input `height` and `width` are required only when the defaults lack `shape`.
- A field the grid's defaults declare is not checked on the input at all.
- The per-input `catch` handler reads `inputDriver.default.number`. Unless the
  input's `default` is present and not null, that read throws, so the original
  error is replaced by a `TypeError`. A `default` that is a number or a boolean
  gives the prefix `Input Id[undefined]: `.
- An array passes the style check: it is of type `'object'` and has no
  border-radius properties of its own.
- `resetLights` treats an input's channel 0 like an absent channel (`||`) and
  falls back to the grid default's channel.

## Model

| member | source | states |
|---|---|---|
| DriverValidator.Every | src/helper/driver-validator.ts:565-571 | forEach with a throwing body passes iff every element passes; a failure is the result of some element all of whose predecessors pass |
| DriverValidator.ValidateFx | src/helper/driver-validator.ts:55-83 | an fx entry passes iff it is an object with non-empty `title` and `effect`, a non-empty `validVals` array, a numeric `defaultVal`, and string bound labels when truthy; failures carry no prefix |
| DriverValidator.ValidateColor | src/helper/driver-validator.ts:12-98 | a colour passes iff it has a non-empty `name` and `string`, `eventType` in the 7-value set, a truthy `modifier` only `blink`/`pulse`, numeric `value`, an `fx` array of valid entries, and valid optional `number`, `channel` (0-15) and `default` |
| DriverValidator.ValidatePalette | src/helper/driver-validator.ts:265-272 | an `availableColors` value passes iff it is absent or an array all of whose colours are valid; failures carry no prefix |
| DriverValidator.ValidateKeyboardDriver | src/helper/driver-validator.ts:100-147 | a keyboard passes iff `defaultOctave` is in [-2,8], `nOctaves` is an integer in [0,100], `channel` is in [0,15], `width`, `height`, `left` and `bottom` are numbers >= 0, and `enabled` is a boolean |
| DriverValidator.ValidateInputDriver | src/helper/driver-validator.ts:149-273 | an input passes iff `number` is numeric; every inheritable field the grid's defaults lack is valid on the input; `height`/`width` are numbers unless the defaults have `shape`; the handle sizes and `value` are valid when present; its own palette is valid |
| DriverValidator.ValidateInheritable | src/helper/driver-validator.ts:161-246 | the inheritance checks pass iff each of `channel` (0-15), `eventType`, `response`, `shape`, `type` and `overrideable` is valid on the input unless the defaults declare it, and `height`/`width` are numbers unless the defaults declare `shape` |
| DriverValidator.ValidateInputOwn | src/helper/driver-validator.ts:247-272 | the input's own `handleWidth`, `handleHeight` and `value` are numbers when present, and its own palette is valid |
| DriverValidator.CatchInput | src/helper/driver-validator.ts:374-378 | the handler never turns a failure into a pass or a pass into a failure; a failure keeps its fault and context behind `Input Id[<default.number>]: ` when `default` is present and not null, and becomes a TypeError otherwise |
| DriverValidator.ValidateInputs | src/helper/driver-validator.ts:429-435 | the inputs loop of a grid passes iff every input passes validateInputDriver against that grid |
| DriverValidator.ValidateDefaultsFields | src/helper/driver-validator.ts:278-363 | the defaults' optional `response`, `eventType`, `channel`, `type`, `width`, `height`, `shape` and `overrideable` pass iff each present one is valid |
| DriverValidator.ValidateInputDefaults | src/helper/driver-validator.ts:275-380 | `undefined` defaults throw a TypeError; defaults pass iff they are a non-null object with valid fields and palette and an `inputs` array each element of which is a valid input against the defaults |
| DriverValidator.ValidateInputGridDriver | src/helper/driver-validator.ts:382-436 | a grid passes iff `id` is a string, its geometry and `inputs` have the right types, it HAS `inputDefaults` (the inverted check), and every input is valid against the grid |
| DriverValidator.ValidateControlSequenceMessage | src/helper/driver-validator.ts:438-473 | an entry passes iff it is an array of length exactly 4 with element 0 in the 9-value status set (no `octdown`/`octup`), elements 1 and 2 numbers and element 3 in [0,15] |
| DriverValidator.ValidateDeviceStyle | src/helper/driver-validator.ts:474-512 | a style passes iff it is an object or an array whose present border radii are strings |
| DriverValidator.ValidateDeviceHeader | src/helper/driver-validator.ts:517-564 | the device's own fields pass iff it is an object with a string `name`, `type` exactly `normal`, `adapter` or `5pin`, numeric `width` and `height`, a numeric `throttle` when present, a valid `style` and an `inputGrids` array |
| DriverValidator.CatchGrid | src/helper/driver-validator.ts:566-570 | the handler keeps pass and failure; a failure keeps its fault and context behind `Input grid: <id>: `, and a null grid throws a TypeError |
| DriverValidator.ValidateGrids | src/helper/driver-validator.ts:565-571 | the grid loop passes iff every grid passes validateInputGridDriver |
| DriverValidator.ValidateDeviceDriver | src/helper/driver-validator.ts:514-602 | a device passes iff `name` is a string, `type` is exactly `normal`, `adapter` or `5pin`, the geometry, throttle and style are valid, every input grid is valid, and the keyboard, control sequence and `anonymous` flag are valid |
| DriverValidator.ValidateDeviceTail | src/helper/driver-validator.ts:572-601 | the checks after the grids pass iff a present keyboard is valid, a present `controlSequence` is an array of valid entries, and a present `anonymous` is a boolean |
| DriverValidator.CatchKeyboard | src/helper/driver-validator.ts:578-583 | the handler keeps pass and failure; a failure keeps its fault and context behind `Keyboard driver: ` |
| DriverValidatorProperties.EveryFirstFailure | src/helper/driver-validator.ts:565-571 | checks run in order: the first failing element's failure is the result |
| DriverValidatorProperties.GridFailureIsPrefixed | src/helper/driver-validator.ts:565-571 | when the device fields are valid, the first failing grid decides the result, with the prefix `Input grid: <id>: ` (a null grid throws a TypeError) |
| DriverValidatorProperties.HeaderFailureComesFirst | src/helper/driver-validator.ts:517-564 | a failure among the device's own fields and style is the device's result, before any grid is looked at, and carries no prefix |
| DriverValidatorProperties.KeyboardFailureIsPrefixed | src/helper/driver-validator.ts:572-584 | after valid device fields and grids, a keyboard failure is the result, with the prefix `Keyboard driver: ` |
| DriverValidatorProperties.InputFailureInGrid | src/helper/driver-validator.ts:429-435 | the first failing input decides a grid's result; the handler turns it into a TypeError unless the input's `default` is present and not null, otherwise prefixes `Input Id[<default.number>]: ` |
| DriverValidatorProperties.InheritableAgree | src/helper/driver-validator.ts:161-246 | two inputs that differ only in a field the defaults declare (or in `height`/`width` when they declare `shape`) pass or fail the inheritance checks alike |
| DriverValidatorProperties.OwnFieldsAgree | src/helper/driver-validator.ts:247-272 | the input's own-field checks read none of the inheritable fields |
| DriverValidatorProperties.AgreeOutsideSkipped | src/helper/driver-validator.ts:149-273 | two inputs that differ only in a field the defaults switch off validate alike |
| DriverValidatorProperties.InheritedFieldIgnored | src/helper/driver-validator.ts:161-246 | a field the defaults declare (and `height`/`width` when they declare `shape`) can be changed to anything or removed on the input without changing the outcome |
| DriverValidatorProperties.MissingDefaultsAlwaysThrow | src/helper/driver-validator.ts:426-428 | a grid with valid fields but no `inputDefaults` always fails with a TypeError |
| DriverValidatorProperties.PresentDefaultsNeverValidated | src/helper/driver-validator.ts:426-428 | a grid with valid fields, any `inputDefaults` and no inputs passes |
| DriverValidatorProperties.NumberNeverInherited | src/helper/driver-validator.ts:156-160 | an input whose `number` is not a number fails on `number` first, whatever the defaults hold |
| DriverValidatorProperties.ControlSequenceFailureComesFirst | src/helper/driver-validator.ts:585-595 | after valid device fields, grids and keyboard, the first failing `controlSequence` entry is the device's result, with no prefix |
| DriverValidatorProperties.MissingFieldReported | src/helper/driver-validator.ts:161-246 | removing an inheritable field (or `height`/`width` without a default `shape`) that the defaults do not supply from a valid input makes it fail on exactly that field |
| DriverValidatorProperties.FieldFailureInGrid | src/helper/driver-validator.ts:429-435 | when an input fails on a field with no prefix and is the first to fail in its grid, the grid reports that field behind `Input Id[<default.number>]: ` if `default` is present and not null, and a TypeError otherwise |
| DriverValidatorProperties.MissingFieldInGrid | src/helper/driver-validator.ts:429-435 | when that input is the first to fail in its grid, the grid fails with that field behind `Input Id[<default.number>]: ` if `default` is present and not null, and with a TypeError otherwise |
| PortService.ResolvedChannel | src/main/port-service/driven-port-pair.ts:36 | the input's own channel is used when present and non-zero; an absent or zero channel gives the defaults' channel |
| PortService.Palette | src/main/port-service/driven-port-pair.ts:37 | the input's own `availableColors`, whenever present (even empty), wins; otherwise the defaults' palette, otherwise the empty palette |
| PortService.FirstDefault | src/main/port-service/driven-port-pair.ts:41 | the colour picked is flagged default and is the first such entry of the palette |
| PortService.InputMessage | src/main/port-service/driven-port-pair.ts:35-44 | at most one message per input; for an input whose palette is empty or has a default colour, nothing is sent iff the resolved palette is empty; a message sent is a colour message with the first default colour of the palette, the input's number and the resolved channel |
| PortService.InputsMessages | src/main/port-service/driven-port-pair.ts:34-45 | a grid with no inputs sends nothing, and every message a grid sends is a colour message with a default colour |
| PortService.ResetMessages | src/main/port-service/driven-port-pair.ts:33-46 | a device with no grids sends nothing, and every message a reset sends is a colour message with a default colour |
| PortService.InputsMessagesStep | src/main/port-service/driven-port-pair.ts:34-45 | the messages of one more input extend the messages of the inputs before it |
| PortService.ResetMessagesStep | src/main/port-service/driven-port-pair.ts:33-46 | the messages of one more grid extend the messages of the grids before it |
| PortService.ResetMessagesAppend | src/main/port-service/driven-port-pair.ts:33-46 | messages go out in grid order: resetting the grids of `a + b` sends those of `a`, then those of `b` |
| PortService.InputsMessagesAtMostOnePerInput | src/main/port-service/driven-port-pair.ts:34-45 | a grid sends at most one message per input |
| PortService.ResetMessagesAtMostOnePerInput | src/main/port-service/driven-port-pair.ts:33-46 | resetLights sends at most one message per input of the device |
| PortService.OwnEmptyPaletteSendsNothing | src/main/port-service/driven-port-pair.ts:37-39 | an input's own empty `availableColors` takes precedence over the defaults' palette, so nothing is sent |
| PortService.ZeroChannelFallsBack | src/main/port-service/driven-port-pair.ts:36 | an absent or zero input channel is replaced by the defaults' channel |
| PortService.HandshakeMessages | src/main/port-service/driven-port-pair.ts:56-61 | one status message per entry, in order, with bytes `[entry[3], entry[1], entry[2]]` and status `entry[0]` |
| PortService.ControlSequenceMessages | src/main/port-service/driven-port-pair.ts:56 | an absent control sequence sends nothing |
| PortService.ChannelOf | src/main/port-service/driven-port-pair.ts:57-60 | a channel has a status-byte reading only when it is an integer in 0-15 |
| PortService.MessageStatus | src/main/port-service/driven-port-pair.ts:41-60 | the status byte that `toMidiArray` and `setStatus` put first: one exists iff the event type is a channel voice type and the channel is an integer in 0-15, and it decodes back to that type and channel |
| PortService.HandshakeStatusDecodes | src/main/port-service/driven-port-pair.ts:57-60 | the status byte of the k-th handshake message decodes back to the entry's status and channel |
| PortService.ResetStatusDecodes | src/main/port-service/driven-port-pair.ts:41-44 | the status byte of an input's colour message decodes back to the colour's event type and the resolved channel |
| PortService.PortPair.Send | src/main/port-service/driven-port-pair.ts:44 | a send appends exactly that message to the log |
| PortService.DrivenPortPair.constructor | src/main/port-service/driven-port-pair.ts:22-29 | holds the given port and driver |
| PortService.DrivenPortPair.ResetLights | src/main/port-service/driven-port-pair.ts:32-47 | appends exactly `ResetMessages` of the driver's grids to the held port's log, and changes nothing else |
| PortService.DrivenPortPair.ResetGridLights | src/main/port-service/driven-port-pair.ts:34-45 | appends exactly the messages of one grid's inputs, in input order |
| PortService.DrivenPortPair.ResetInputLight | src/main/port-service/driven-port-pair.ts:35-44 | appends exactly `InputMessage` of one input |
| PortService.DrivenPortPair.RunControlSequence | src/main/port-service/driven-port-pair.ts:55-63 | appends exactly `ControlSequenceMessages` of the driver, one per entry in declared order, and nothing when the sequence is absent |
| Midi.StatusByte | src/main/port-service/driven-port-pair.ts:57-60 | a status byte exists iff the event type has a MIDI channel-voice nibble; it lies in 0x80-0xEF and its low nibble is the channel |
| Midi.DecodeStatus | src/main/port-service/driven-port-pair.ts:57-60 | a byte decodes iff it is in 0x80-0xEF, to a known type and a channel in 0-15 |
| Midi.StatusRoundTrip | src/main/port-service/driven-port-pair.ts:57-60 | decoding the status byte of a type and channel gives back that type and channel |
| Midi.DecodeRoundTrip | src/main/port-service/driven-port-pair.ts:57-60 | re-encoding a decoded status byte gives back the byte |
| HardwareConfig.ConfigFromDriver | src/shared/hardware-config/index.ts:13-23 | `anonymous` wins over `adapter` and gives an Anonymous config with the name, an empty map and an empty list; otherwise `adapter` gives Adapter; everything else gives Supported from the driver; the sibling index passes through unchanged |
| HardwareConfig.ConfigFromJson | src/shared/hardware-config/index.ts:25-32 | a null document throws; otherwise Supported iff `supported` is truthy, else Anonymous, never Adapter |

## Left out

- `JSON.parse` in `configFromJSON`: the model starts from the parsed value. The
  constructors `SupportedDeviceConfig.fromDriver`, `fromParsedJSON` and
  `AnonymousDeviceConfig.fromParsedJSON` are kept as opaque variants, because
  their source is not part of this model.
- The internals of the config classes (`bindingAvailable`, sharing, `restoreDefaults`, `InputConfig`): not part of this model.
- The React panels, the title bar and the unsupported-device test: they are UI and tests.
- Error message text: an error keeps only its entity, field and prefixes. A
  JavaScript exception is the single fault `TypeError`.
- JavaScript number quirks: numbers are exact reals, so `NaN` and `Infinity`
  are not modelled. Properties inherited through the prototype chain are not
  modelled either: `hasOwnProperty` and property reads see own fields only.
- DriverValidator.CatchGrid: the prefix `${inputGrid.id}` converts the id to a
  string (`src/helper/driver-validator.ts:569`). An id that is an object whose own
  `toString` is not a function (for example `{"toString": 0}`) makes that
  conversion throw a TypeError in the source. The model does not model this
  throw: it still gives the `InGrid` prefix with the original fault.
  `GridFailureIsPrefixed` has the same gap.
- DriverValidator.CatchInput: the same holds for `${inputDriver.default.number}`
  (`:377`, `:433`). A `default.number` that is such an object throws in the
  source, but the model gives the `InInput` prefix. `InputFailureInGrid`,
  `FieldFailureInGrid` and `MissingFieldInGrid` have the same gap.
- Json.Has: `x.hasOwnProperty(k)` is modelled as an own-key test that always
  succeeds. A document object whose own key `hasOwnProperty` shadows the method
  (for example `{"hasOwnProperty": 0}` as a device, style, grid or input) makes
  that call throw a TypeError in the source (`src/helper/driver-validator.ts:156`,
  `:162`, `:481`, `:520`), but the model still evaluates the check. For example,
  such a style passes `DriverValidator.ValidateDeviceStyle`.
- The bodies of `setStatus` and `ColorImpl.toMidiArray`, which are not part of this model.
  - Messages are recorded as symbolic terms.
  - The status byte follows the MIDI 1.0 channel-voice rule in `Midi`.
  - `noteon/noteoff` and `unknown` have no status byte there.
- Port transport (`iPort`, `oPort`, errors from `send`) and the `testables` map: they are I/O and test plumbing.
- PortService.DrivenPortPair.ResetLights: requires that every non-empty
  resolved palette holds a default-flagged colour. Without one, the source
  builds a `ColorImpl` from `undefined`, and the behaviour is not defined.
- PortService.DrivenPortPair.ResetGridLights: the source's inner `forEach` is a
  separate method here, and so is its body (`ResetInputLight`), so each loop is
  proved on its own.
- PortService.InputMessage: a non-empty palette without a default colour yields
  no message. The source has no defined behaviour there, and `ResetLights` excludes it.
- The typed `DeviceDriver` record keeps only the fields that `resetLights`,
  `runControlSequence` and `configFromDriver` read, plus each grid's `id`. The model has no
  conversion from a validated JSON document to the typed record.
- The colour type `src/driver-types/color.ts:23` allows only the modifier
  `blink`, but the validator accepts `pulse` too. The typed `Color` follows the validator.
- The sibling index is an unbounded integer.
