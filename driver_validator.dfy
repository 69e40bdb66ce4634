/**
 * The driver-descriptor validator: a chain of guards over an untrusted,
 * parsed JSON document. Each validator yields Pass, or the first failure in
 * the fixed order of its checks. Failures caught and re-thrown with a prefix
 * (an input grid, an input, the keyboard) carry that prefix as a Context.
 */
module DriverValidator {
  import opened Wrappers
  import opened Json

  /** The kind of object a failing check was looking at. */
  datatype Entity =
    | Device | Style | Grid | Input | Defaults | ColorObj | Fx | Keyboard | ControlMessage

  datatype Fault =
    | NotAnObject(entity: Entity)
    | BadField(entity: Entity, field: string)
      /** A JavaScript TypeError: a property read on null or undefined. */
    | TypeError

  /** The prefixes added by the catch handlers, outermost first. */
  datatype Context =
    | InGrid(id: Option<J>)         // `Input grid: ${inputGrid.id}: `
    | InInput(number: Option<J>)    // `Input Id[${inputDriver.default.number}]: `
    | InKeyboard                    // `Keyboard driver: `

  datatype Error = Error(context: seq<Context>, fault: Fault)

  datatype Outcome = Pass | Fail(error: Error)

  function Bad(entity: Entity, field: string): Outcome {
    Fail(Error([], BadField(entity, field)))
  }

  const Thrown: Outcome := Fail(Error([], TypeError))

  // ---------------------------------------------------------------------------
  // Closed sets of accepted strings

  const ColorEventTypes: set<string> :=
    {"noteon", "noteoff", "keypressure", "controlchange", "programchange",
     "channelpressure", "pitchbend"}

  const InputEventTypes: set<string> :=
    {"noteon", "noteoff", "octdown", "octup", "noteon/noteoff", "keypressure",
     "controlchange", "programchange", "channelpressure", "pitchbend", "unknown"}

  const ControlStatuses: set<string> :=
    {"noteon", "noteoff", "keypressure", "controlchange", "programchange",
     "channelpressure", "noteon/noteoff", "pitchbend", "unknown"}

  const Modifiers: set<string> := {"blink", "pulse"}
  const Responses: set<string> := {"gate", "toggle", "continuous", "constant"}
  const Shapes: set<string> := {"circle", "rect", "square"}
  const InputTypes: set<string> := {"pad", "knob", "slider", "wheel", "xy"}
  const DeviceTypes: set<string> := {"normal", "adapter", "5pin"}

  /** The per-input fields a grid's `inputDefaults` can supply instead. */
  const InheritableFields: set<string> :=
    {"channel", "eventType", "response", "shape", "type", "overrideable"}

  // ---------------------------------------------------------------------------
  // forEach: the first element that fails decides the result

  function Every(xs: seq<J>, check: J -> Outcome): (r: Outcome)
    ensures r.Pass? <==> forall k :: 0 <= k < |xs| ==> check(xs[k]).Pass?
    ensures r.Fail? ==>
      exists k :: 0 <= k < |xs| && check(xs[k]) == r &&
        forall j :: 0 <= j < k ==> check(xs[j]).Pass?
  {
    if xs == [] then Pass
    else if check(xs[0]).Fail? then check(xs[0])
    else
      var rest := Every(xs[1..], check);
      assert forall k :: 0 <= k < |xs[1..]| ==> xs[1..][k] == xs[k + 1];
      rest
  }

  // ---------------------------------------------------------------------------
  // Colours and their fx entries

  ghost predicate FxOk(fx: J) {
    && fx.JObj?
    && IsNonEmptyStr(Prop(fx, "title"))
    && IsNonEmptyStr(Prop(fx, "effect"))
    && IsArr(Prop(fx, "validVals")) && |Prop(fx, "validVals").value.items| > 0
    && IsNum(Prop(fx, "defaultVal"))
    && (Truthy(Prop(fx, "lowBoundLabel")) ==> IsStr(Prop(fx, "lowBoundLabel")))
    && (Truthy(Prop(fx, "highBoundLabel")) ==> IsStr(Prop(fx, "highBoundLabel")))
  }

  function ValidateFx(fx: J): (r: Outcome)
    ensures r.Pass? <==> FxOk(fx)
    ensures r.Fail? ==> r.error.context == []
  {
    if fx.JNull? then Thrown
    else if !IsNonEmptyStr(Prop(fx, "title")) then Bad(Fx, "title")
    else if !IsNonEmptyStr(Prop(fx, "effect")) then Bad(Fx, "effect")
    else if !IsArr(Prop(fx, "validVals")) || |Prop(fx, "validVals").value.items| == 0 then
      Bad(Fx, "validVals")
    else if !IsNum(Prop(fx, "defaultVal")) then Bad(Fx, "defaultVal")
    else if Truthy(Prop(fx, "lowBoundLabel")) && !IsStr(Prop(fx, "lowBoundLabel")) then
      Bad(Fx, "lowBoundLabel")
    else if Truthy(Prop(fx, "highBoundLabel")) && !IsStr(Prop(fx, "highBoundLabel")) then
      Bad(Fx, "highBoundLabel")
    else Pass
  }

  ghost predicate ColorOk(c: J) {
    && c.JObj?
    && IsNonEmptyStr(Prop(c, "name"))
    && IsNonEmptyStr(Prop(c, "string"))
    && StrIn(Prop(c, "eventType"), ColorEventTypes)
    && (Truthy(Prop(c, "modifier")) ==> StrIn(Prop(c, "modifier"), Modifiers))
    && IsNum(Prop(c, "value"))
    && IsArr(Prop(c, "fx"))
    && (forall k :: 0 <= k < |Prop(c, "fx").value.items| ==> FxOk(Prop(c, "fx").value.items[k]))
    && (Has(c, "number") ==> IsNum(Prop(c, "number")))
    && (Has(c, "channel") ==> NumIn(Prop(c, "channel"), 0.0, 15.0))
    && (Has(c, "default") ==> IsBool(Prop(c, "default")))
  }

  function ValidateColor(c: J): (r: Outcome)
    ensures r.Pass? <==> ColorOk(c)
    ensures r.Fail? ==> r.error.context == []
  {
    if c.JNull? then Thrown
    else if !IsNonEmptyStr(Prop(c, "name")) then Bad(ColorObj, "name")
    else if !IsNonEmptyStr(Prop(c, "string")) then Bad(ColorObj, "string")
    else if !Truthy(Prop(c, "eventType")) || !StrIn(Prop(c, "eventType"), ColorEventTypes) then
      Bad(ColorObj, "eventType")
    else if Truthy(Prop(c, "modifier")) && !StrIn(Prop(c, "modifier"), Modifiers) then
      Bad(ColorObj, "modifier")
    else if !IsNum(Prop(c, "value")) then Bad(ColorObj, "value")
    else if !IsArr(Prop(c, "fx")) then Bad(ColorObj, "fx")
    else
      var fxs := Every(Prop(c, "fx").value.items, ValidateFx);
      if fxs.Fail? then fxs
      else if Has(c, "number") && !IsNum(Prop(c, "number")) then Bad(ColorObj, "number")
      else if Has(c, "channel") && !NumIn(Prop(c, "channel"), 0.0, 15.0) then
        Bad(ColorObj, "channel")
      else if Has(c, "default") && !IsBool(Prop(c, "default")) then Bad(ColorObj, "default")
      else Pass
  }

  /** `availableColors`, when present, is an array of valid colours. */
  ghost predicate PaletteOk(colors: Option<J>) {
    colors.Some? ==>
      && IsArr(colors)
      && forall k :: 0 <= k < |colors.value.items| ==> ColorOk(colors.value.items[k])
  }

  /** The `availableColors` check of validateInputDriver and validateInputDefaults. */
  function ValidatePalette(owner: Entity, colors: Option<J>): (r: Outcome)
    ensures r.Pass? <==> PaletteOk(colors)
    ensures r.Fail? ==> r.error.context == []
  {
    if colors.None? then Pass
    else if !IsArr(colors) then Bad(owner, "availableColors")
    else Every(colors.value.items, ValidateColor)
  }

  // ---------------------------------------------------------------------------
  // Keyboard section

  ghost predicate KeyboardOk(kb: J) {
    && kb.JObj?
    && NumIn(Prop(kb, "defaultOctave"), -2.0, 8.0)
    && NumIn(Prop(kb, "nOctaves"), 0.0, 100.0) && IsInteger(Prop(kb, "nOctaves").value.n)
    && NumIn(Prop(kb, "channel"), 0.0, 15.0)
    && NumAtLeast(Prop(kb, "width"), 0.0)
    && NumAtLeast(Prop(kb, "height"), 0.0)
    && NumAtLeast(Prop(kb, "left"), 0.0)
    && NumAtLeast(Prop(kb, "bottom"), 0.0)
    && IsBool(Prop(kb, "enabled"))
  }

  function ValidateKeyboardDriver(kb: J): (r: Outcome)
    ensures r.Pass? <==> KeyboardOk(kb)
    ensures r.Fail? ==> r.error.context == []
  {
    if !IsObjectType(kb) then Fail(Error([], NotAnObject(Keyboard)))
    else if kb.JNull? then Thrown
    else if !NumIn(Prop(kb, "defaultOctave"), -2.0, 8.0) then Bad(Keyboard, "defaultOctave")
    else if !NumIn(Prop(kb, "nOctaves"), 0.0, 100.0) || !IsInteger(Prop(kb, "nOctaves").value.n) then
      Bad(Keyboard, "nOctaves")
    else if !NumIn(Prop(kb, "channel"), 0.0, 15.0) then Bad(Keyboard, "channel")
    else if !NumAtLeast(Prop(kb, "width"), 0.0) then Bad(Keyboard, "width")
    else if !NumAtLeast(Prop(kb, "height"), 0.0) then Bad(Keyboard, "height")
    else if !NumAtLeast(Prop(kb, "left"), 0.0) then Bad(Keyboard, "left")
    else if !NumAtLeast(Prop(kb, "bottom"), 0.0) then Bad(Keyboard, "bottom")
    else if !IsBool(Prop(kb, "enabled")) then Bad(Keyboard, "enabled")
    else Pass
  }

  // ---------------------------------------------------------------------------
  // Inputs, with inheritance from the grid's inputDefaults

  /** `ig.inputDefaults` can answer `hasOwnProperty`: it is neither undefined nor null. */
  predicate DefaultsReadable(grid: J) {
    Has(grid, "inputDefaults") && !grid.fields["inputDefaults"].JNull?
  }

  /**
   * The per-input checks a grid's defaults can switch off: each field the
   * defaults declare is not looked at on the input, and declaring `shape`
   * also switches off `height` and `width`.
   */
  ghost predicate InheritableOk(input: J, d: J) {
    && (Has(d, "channel") || NumIn(Prop(input, "channel"), 0.0, 15.0))
    && (Has(d, "eventType") || StrIn(Prop(input, "eventType"), InputEventTypes))
    && (Has(d, "response") || StrIn(Prop(input, "response"), Responses))
    && (Has(d, "shape") || StrIn(Prop(input, "shape"), Shapes))
    && (Has(d, "type") || StrIn(Prop(input, "type"), InputTypes))
    && (Has(d, "overrideable") || IsBool(Prop(input, "overrideable")))
    && (Has(d, "shape") || IsNum(Prop(input, "height")))
    && (Has(d, "shape") || IsNum(Prop(input, "width")))
  }

  function ValidateInheritable(input: J, d: J): (r: Outcome)
    ensures r.Pass? <==> InheritableOk(input, d)
    ensures r.Fail? ==> r.error.context == []
  {
    if !Has(d, "channel") && !NumIn(Prop(input, "channel"), 0.0, 15.0) then Bad(Input, "channel")
    else if !Has(d, "eventType") &&
            (!Truthy(Prop(input, "eventType")) || !StrIn(Prop(input, "eventType"), InputEventTypes)) then
      Bad(Input, "eventType")
    else if !Has(d, "response") && !StrIn(Prop(input, "response"), Responses) then Bad(Input, "response")
    else if !Has(d, "shape") && !StrIn(Prop(input, "shape"), Shapes) then Bad(Input, "shape")
    else if !Has(d, "type") && !StrIn(Prop(input, "type"), InputTypes) then Bad(Input, "type")
    else if !Has(d, "overrideable") && !IsBool(Prop(input, "overrideable")) then
      Bad(Input, "overrideable")
    // gated on the defaults' `shape`, not on their `height` and `width`
    else if !Has(d, "shape") && !IsNum(Prop(input, "height")) then Bad(Input, "height")
    else if !Has(d, "shape") && !IsNum(Prop(input, "width")) then Bad(Input, "width")
    else Pass
  }

  /** The input's own optional fields, which no default replaces. */
  ghost predicate InputOwnOk(input: J) {
    && (Has(input, "handleWidth") ==> IsNum(Prop(input, "handleWidth")))
    && (Has(input, "handleHeight") ==> IsNum(Prop(input, "handleHeight")))
    && (Has(input, "value") ==> IsNum(Prop(input, "value")))
    && PaletteOk(Prop(input, "availableColors"))
  }

  function ValidateInputOwn(input: J): (r: Outcome)
    ensures r.Pass? <==> InputOwnOk(input)
    ensures r.Fail? ==> r.error.context == []
  {
    if Has(input, "handleWidth") && !IsNum(Prop(input, "handleWidth")) then Bad(Input, "handleWidth")
    else if Has(input, "handleHeight") && !IsNum(Prop(input, "handleHeight")) then
      Bad(Input, "handleHeight")
    else if Has(input, "value") && !IsNum(Prop(input, "value")) then Bad(Input, "value")
    else ValidatePalette(Input, Prop(input, "availableColors"))
  }

  ghost predicate InputOk(input: J, grid: J) {
    && input.JObj?
    && IsNum(Prop(input, "number"))
    && DefaultsReadable(grid)
    && InheritableOk(input, grid.fields["inputDefaults"])
    && InputOwnOk(input)
  }

  /** validateInputDriver(input, grid): `grid` is the object whose inputDefaults apply. */
  function ValidateInputDriver(input: J, grid: J): (r: Outcome)
    ensures r.Pass? <==> InputOk(input, grid)
    ensures r.Fail? ==> r.error.context == []
  {
    if !IsObjectType(input) then Fail(Error([], NotAnObject(Input)))
    else if input.JNull? then Thrown
    else if !IsNum(Prop(input, "number")) then Bad(Input, "number")
    // reading `grid.inputDefaults.<field>` throws when the defaults are missing or null
    else if !DefaultsReadable(grid) then Thrown
    else
      var inherited := ValidateInheritable(input, grid.fields["inputDefaults"]);
      if inherited.Fail? then inherited
      else ValidateInputOwn(input)
  }

  /**
   * The catch handler around validateInputDriver: it re-throws with the prefix
   * `Input Id[${inputDriver.default.number}]`, which itself throws a TypeError
   * (losing the original failure) unless the input's `default` is present and
   * not null; a `default` that is a number or a boolean reads `number` as undefined.
   */
  function CatchInput(input: J, r: Outcome): (o: Outcome)
    ensures o.Pass? <==> r.Pass?
    ensures r.Fail? && Has(input, "default") && !input.fields["default"].JNull? ==>
      o.error == Error([InInput(Prop(input.fields["default"], "number"))] + r.error.context, r.error.fault)
    ensures r.Fail? && (!Has(input, "default") || input.fields["default"].JNull?) ==> o == Thrown
  {
    if r.Pass? then Pass
    else if !Has(input, "default") || input.fields["default"].JNull? then Thrown
    else
      Fail(Error([InInput(Prop(input.fields["default"], "number"))] + r.error.context, r.error.fault))
  }

  function CheckInputOf(grid: J): J -> Outcome {
    input => CatchInput(input, ValidateInputDriver(input, grid))
  }

  /** The forEach over a grid's inputs, each wrapped in its catch handler. */
  function ValidateInputs(inputs: seq<J>, grid: J): (r: Outcome)
    ensures r.Pass? <==> forall k :: 0 <= k < |inputs| ==> InputOk(inputs[k], grid)
  {
    var r := Every(inputs, CheckInputOf(grid));
    assert r.Pass? <==> forall k :: 0 <= k < |inputs| ==> InputOk(inputs[k], grid) by {
      forall k | 0 <= k < |inputs|
        ensures CheckInputOf(grid)(inputs[k]).Pass? <==> InputOk(inputs[k], grid)
      {
      }
    }
    r
  }

  /** The optional fields of a defaults object, each valid when present. */
  ghost predicate DefaultsFieldsOk(v: J) {
    && (Has(v, "response") ==> StrIn(Prop(v, "response"), Responses))
    && (Truthy(Prop(v, "eventType")) ==> StrIn(Prop(v, "eventType"), InputEventTypes))
    && (Has(v, "channel") ==> NumIn(Prop(v, "channel"), 0.0, 15.0))
    && (Has(v, "type") ==> StrIn(Prop(v, "type"), InputTypes))
    && (Has(v, "width") ==> IsNum(Prop(v, "width")))
    && (Has(v, "height") ==> IsNum(Prop(v, "height")))
    && (Has(v, "shape") ==> StrIn(Prop(v, "shape"), Shapes))
    && (Has(v, "overrideable") ==> IsBool(Prop(v, "overrideable")))
  }

  function ValidateDefaultsFields(v: J): (r: Outcome)
    ensures r.Pass? <==> DefaultsFieldsOk(v)
    ensures r.Fail? ==> r.error.context == []
  {
    if Has(v, "response") && !StrIn(Prop(v, "response"), Responses) then Bad(Defaults, "response")
    else if Truthy(Prop(v, "eventType")) && !StrIn(Prop(v, "eventType"), InputEventTypes) then
      Bad(Defaults, "eventType")
    else if Has(v, "channel") && !NumIn(Prop(v, "channel"), 0.0, 15.0) then Bad(Defaults, "channel")
    else if Has(v, "type") && !StrIn(Prop(v, "type"), InputTypes) then Bad(Defaults, "type")
    else if Has(v, "width") && !IsNum(Prop(v, "width")) then Bad(Defaults, "width")
    else if Has(v, "height") && !IsNum(Prop(v, "height")) then Bad(Defaults, "height")
    else if Has(v, "shape") && !StrIn(Prop(v, "shape"), Shapes) then Bad(Defaults, "shape")
    else if Has(v, "overrideable") && !IsBool(Prop(v, "overrideable")) then
      Bad(Defaults, "overrideable")
    else Pass
  }

  /**
   * What validateInputDefaults accepts: valid optional fields and palette,
   * and an `inputs` array each of whose elements is a valid input with the
   * defaults object itself standing as the grid.
   */
  ghost predicate DefaultsOk(v: J) {
    && !v.JNull?
    && DefaultsFieldsOk(v)
    && PaletteOk(Prop(v, "availableColors"))
    && IsArr(Prop(v, "inputs"))
    && forall k :: 0 <= k < |v.fields["inputs"].items| ==> InputOk(v.fields["inputs"].items[k], v)
  }

  /** validateInputDefaults; the argument is undefined when it is None. */
  function ValidateInputDefaults(defaults: Option<J>): (r: Outcome)
    ensures defaults.None? ==> r == Thrown
    ensures r.Pass? <==> defaults.Some? && DefaultsOk(defaults.value)
  {
    if defaults.None? || defaults.value.JNull? then Thrown
    else
      var v := defaults.value;
      var fields := ValidateDefaultsFields(v);
      if fields.Fail? then fields
      else
        var colors := ValidatePalette(Defaults, Prop(v, "availableColors"));
        if colors.Fail? then colors
        // `input.inputs.forEach` throws unless `inputs` is an array
        else if !IsArr(Prop(v, "inputs")) then Thrown
        else ValidateInputs(v.fields["inputs"].items, v)
  }

  // ---------------------------------------------------------------------------
  // Input grids

  /** The grid's own fields, checked before any of its inputs. */
  predicate GridHeaderOk(g: J) {
    && g.JObj?
    && IsStr(Prop(g, "id"))
    && IsNum(Prop(g, "height"))
    && IsNum(Prop(g, "width"))
    && IsNum(Prop(g, "nRows"))
    && IsNum(Prop(g, "nCols"))
    && IsNum(Prop(g, "left"))
    && IsNum(Prop(g, "bottom"))
    && IsArr(Prop(g, "inputs"))
  }

  ghost predicate GridOk(g: J) {
    && GridHeaderOk(g)
    && Has(g, "inputDefaults")
    && forall k :: 0 <= k < |g.fields["inputs"].items| ==>
         InputOk(g.fields["inputs"].items[k], g)
  }

  function ValidateInputGridDriver(g: J): (r: Outcome)
    ensures r.Pass? <==> GridOk(g)
  {
    if !IsObjectType(g) then Fail(Error([], NotAnObject(Grid)))
    else if g.JNull? then Thrown
    else if !IsStr(Prop(g, "id")) then Bad(Grid, "id")
    else if !IsNum(Prop(g, "height")) then Bad(Grid, "height")
    else if !IsNum(Prop(g, "width")) then Bad(Grid, "width")
    else if !IsNum(Prop(g, "nRows")) then Bad(Grid, "nRows")
    else if !IsNum(Prop(g, "nCols")) then Bad(Grid, "nCols")
    else if !IsNum(Prop(g, "left")) then Bad(Grid, "left")
    else if !IsNum(Prop(g, "bottom")) then Bad(Grid, "bottom")
    else if !IsArr(Prop(g, "inputs")) then Bad(Grid, "inputs")
    else
      // the guard is inverted: defaults are "validated" only when they are absent
      var defaults := if !Has(g, "inputDefaults") then ValidateInputDefaults(Prop(g, "inputDefaults")) else Pass;
      if defaults.Fail? then defaults
      else ValidateInputs(g.fields["inputs"].items, g)
  }

  /** The catch handler around validateInputGridDriver, which reads `inputGrid.id`. */
  function CatchGrid(g: J, r: Outcome): (o: Outcome)
    ensures o.Pass? <==> r.Pass?
    ensures r.Fail? && !g.JNull? ==> o.error == Error([InGrid(Prop(g, "id"))] + r.error.context, r.error.fault)
    ensures r.Fail? && g.JNull? ==> o == Thrown
  {
    if r.Pass? then Pass
    else if g.JNull? then Thrown
    else Fail(Error([InGrid(Prop(g, "id"))] + r.error.context, r.error.fault))
  }

  function CheckGrid(g: J): Outcome {
    CatchGrid(g, ValidateInputGridDriver(g))
  }

  // ---------------------------------------------------------------------------
  // Control sequence, style and the device itself

  ghost predicate ControlSequenceMessageOk(m: J) {
    && m.JArr? && |m.items| == 4
    && StrIn(Some(m.items[0]), ControlStatuses)
    && m.items[1].JNum?
    && m.items[2].JNum?
    && NumIn(Some(m.items[3]), 0.0, 15.0)
  }

  function ValidateControlSequenceMessage(m: J): (r: Outcome)
    ensures r.Pass? <==> ControlSequenceMessageOk(m)
    ensures r.Fail? ==> r.error.context == []
  {
    if !m.JArr? || |m.items| != 4 then Bad(ControlMessage, "length")
    else if !StrIn(Some(m.items[0]), ControlStatuses) then Bad(ControlMessage, "0")
    else if !m.items[1].JNum? then Bad(ControlMessage, "1")
    else if !m.items[2].JNum? then Bad(ControlMessage, "2")
    else if !NumIn(Some(m.items[3]), 0.0, 15.0) then Bad(ControlMessage, "3")
    else Pass
  }

  /**
   * Each border radius, when present, is a string. An array passes too: it is
   * of type 'object' and has none of these own properties.
   */
  predicate StyleOk(s: J) {
    && (s.JObj? || s.JArr?)
    && (Has(s, "borderTopLeftRadius") ==> IsStr(Prop(s, "borderTopLeftRadius")))
    && (Has(s, "borderTopRightRadius") ==> IsStr(Prop(s, "borderTopRightRadius")))
    && (Has(s, "borderBottomLeftRadius") ==> IsStr(Prop(s, "borderBottomLeftRadius")))
    && (Has(s, "borderBottomRightRadius") ==> IsStr(Prop(s, "borderBottomRightRadius")))
  }

  function ValidateDeviceStyle(s: J): (r: Outcome)
    ensures r.Pass? <==> StyleOk(s)
    ensures r.Fail? ==> r.error.context == []
  {
    if !IsObjectType(s) then Fail(Error([], NotAnObject(Style)))
    else if s.JNull? then Thrown
    else if Has(s, "borderTopLeftRadius") && !IsStr(Prop(s, "borderTopLeftRadius")) then
      Bad(Style, "borderTopLeftRadius")
    else if Has(s, "borderTopRightRadius") && !IsStr(Prop(s, "borderTopRightRadius")) then
      Bad(Style, "borderTopRightRadius")
    else if Has(s, "borderBottomLeftRadius") && !IsStr(Prop(s, "borderBottomLeftRadius")) then
      Bad(Style, "borderBottomLeftRadius")
    else if Has(s, "borderBottomRightRadius") && !IsStr(Prop(s, "borderBottomRightRadius")) then
      Bad(Style, "borderBottomRightRadius")
    else Pass
  }

  /** Everything validateDeviceDriver checks before the input grids. */
  predicate DeviceHeaderOk(d: J) {
    && d.JObj?
    && IsStr(Prop(d, "name"))
    && StrIn(Prop(d, "type"), DeviceTypes)
    && IsNum(Prop(d, "width"))
    && IsNum(Prop(d, "height"))
    && (Has(d, "throttle") ==> IsNum(Prop(d, "throttle")))
    && Has(d, "style") && StyleOk(d.fields["style"])
    && IsArr(Prop(d, "inputGrids"))
  }

  /** The checks validateDeviceDriver makes after the input grids. */
  ghost predicate DeviceTailOk(d: J)
    requires d.JObj?
  {
    && (Has(d, "keyboard") ==> KeyboardOk(d.fields["keyboard"]))
    && (Has(d, "controlSequence") ==>
          && d.fields["controlSequence"].JArr?
          && forall k :: 0 <= k < |d.fields["controlSequence"].items| ==>
               ControlSequenceMessageOk(d.fields["controlSequence"].items[k]))
    && (Has(d, "anonymous") ==> IsBool(Prop(d, "anonymous")))
  }

  ghost predicate DeviceOk(d: J) {
    && DeviceHeaderOk(d)
    && (forall k :: 0 <= k < |d.fields["inputGrids"].items| ==> GridOk(d.fields["inputGrids"].items[k]))
    && DeviceTailOk(d)
  }

  /** The device's own fields and its style, checked before the input grids. */
  function ValidateDeviceHeader(d: J): (r: Outcome)
    ensures r.Pass? <==> DeviceHeaderOk(d)
    ensures r.Fail? ==> r.error.context == []
  {
    if !IsObjectType(d) then Fail(Error([], NotAnObject(Device)))
    else if d.JNull? then Thrown
    else if !IsStr(Prop(d, "name")) then Bad(Device, "name")
    else if !StrIn(Prop(d, "type"), DeviceTypes) then Bad(Device, "type")
    else if !IsNum(Prop(d, "width")) then Bad(Device, "width")
    else if !IsNum(Prop(d, "height")) then Bad(Device, "height")
    else if Has(d, "throttle") && !IsNum(Prop(d, "throttle")) then Bad(Device, "throttle")
    else if !Has(d, "style") || !IsObjectType(d.fields["style"]) then Bad(Device, "style")
    else
      var style := ValidateDeviceStyle(d.fields["style"]);
      if style.Fail? then style
      else if !IsArr(Prop(d, "inputGrids")) then Bad(Device, "inputGrids")
      else Pass
  }

  /** The input-grid loop: each grid in order, each failure prefixed with the grid's id. */
  function ValidateGrids(grids: seq<J>): (r: Outcome)
    ensures r.Pass? <==> forall k :: 0 <= k < |grids| ==> GridOk(grids[k])
  {
    var r := Every(grids, CheckGrid);
    assert r.Pass? <==> forall k :: 0 <= k < |grids| ==> GridOk(grids[k]) by {
      forall k | 0 <= k < |grids|
        ensures CheckGrid(grids[k]).Pass? <==> GridOk(grids[k])
      {
      }
    }
    r
  }

  function ValidateDeviceDriver(d: J): (r: Outcome)
    ensures r.Pass? <==> DeviceOk(d)
  {
    var header := ValidateDeviceHeader(d);
    if header.Fail? then header
    else
      var grids := ValidateGrids(d.fields["inputGrids"].items);
      if grids.Fail? then grids
      else ValidateDeviceTail(d)
  }

  /** Keyboard, control sequence and `anonymous`, in that order. */
  function ValidateDeviceTail(d: J): (r: Outcome)
    requires d.JObj?
    ensures r.Pass? <==> DeviceTailOk(d)
  {
    if Has(d, "keyboard") && !IsObjectType(d.fields["keyboard"]) then Bad(Device, "keyboard")
    else
      var keyboard := if Has(d, "keyboard") then CatchKeyboard(ValidateKeyboardDriver(d.fields["keyboard"])) else Pass;
      if keyboard.Fail? then keyboard
      else if Has(d, "controlSequence") && !d.fields["controlSequence"].JArr? then
        Bad(Device, "controlSequence")
      else
        var sequence :=
          if Has(d, "controlSequence") then Every(d.fields["controlSequence"].items, ValidateControlSequenceMessage)
          else Pass;
        if sequence.Fail? then sequence
        else if Has(d, "anonymous") && !IsBool(Prop(d, "anonymous")) then Bad(Device, "anonymous")
        else Pass
  }

  /** The catch handler around validateKeyboardDriver. */
  function CatchKeyboard(r: Outcome): (o: Outcome)
    ensures o.Pass? <==> r.Pass?
    ensures r.Fail? ==> o.error == Error([InKeyboard] + r.error.context, r.error.fault)
  {
    if r.Pass? then Pass else Fail(Error([InKeyboard] + r.error.context, r.error.fault))
  }
}
