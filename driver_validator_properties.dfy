/**
 * Properties of the driver validator that relate several checks: the order in
 * which failures surface and the prefixes they carry, and default inheritance.
 */
module DriverValidatorProperties {
  import opened Wrappers
  import opened Json
  import opened DriverValidator

  /** forEach stops at the first failing element, and that element's failure is the result. */
  lemma {:induction false} EveryFirstFailure(xs: seq<J>, check: J -> Outcome, k: nat)
    requires k < |xs| && check(xs[k]).Fail?
    requires forall j :: 0 <= j < k ==> check(xs[j]).Pass?
    ensures Every(xs, check) == check(xs[k])
  {
    if k > 0 {
      assert xs[1..][k - 1] == xs[k];
      EveryFirstFailure(xs[1..], check, k - 1);
    }
  }

  /**
   * When the device's own fields are valid, the first failing input grid
   * decides the result, re-thrown with the prefix `Input grid: <id>: `
   * (a null grid makes the handler itself throw a TypeError).
   */
  lemma GridFailureIsPrefixed(d: J, k: nat)
    requires DeviceHeaderOk(d)
    requires k < |d.fields["inputGrids"].items|
    requires forall j :: 0 <= j < k ==> ValidateInputGridDriver(d.fields["inputGrids"].items[j]).Pass?
    requires ValidateInputGridDriver(d.fields["inputGrids"].items[k]).Fail?
    ensures
      var g := d.fields["inputGrids"].items[k];
      var e := ValidateInputGridDriver(g).error;
      ValidateDeviceDriver(d) ==
        if g.JNull? then Fail(Error([], TypeError))
        else Fail(Error([InGrid(Prop(g, "id"))] + e.context, e.fault))
  {
    var grids := d.fields["inputGrids"].items;
    EveryFirstFailure(grids, CheckGrid, k);
  }

  /** The device's own fields are checked before anything else: their first failure is the result. */
  lemma HeaderFailureComesFirst(d: J)
    requires ValidateDeviceHeader(d).Fail?
    ensures ValidateDeviceDriver(d) == ValidateDeviceHeader(d)
    ensures ValidateDeviceDriver(d).error.context == []
  {
  }

  /**
   * When the device fields and every grid are valid and the keyboard is of
   * type 'object', a keyboard failure is the result, with the prefix `Keyboard driver: `.
   */
  lemma KeyboardFailureIsPrefixed(d: J)
    requires DeviceHeaderOk(d)
    requires ValidateGrids(d.fields["inputGrids"].items).Pass?
    requires Has(d, "keyboard") && IsObjectType(d.fields["keyboard"])
    requires ValidateKeyboardDriver(d.fields["keyboard"]).Fail?
    ensures ValidateDeviceDriver(d) ==
      Fail(Error([InKeyboard], ValidateKeyboardDriver(d.fields["keyboard"]).error.fault))
  {
    assert ValidateDeviceHeader(d).Pass?;
    assert ValidateDeviceTail(d) == CatchKeyboard(ValidateKeyboardDriver(d.fields["keyboard"]));
  }

  /**
   * Within a grid whose own fields are valid, the first failing input decides
   * the result. Its handler reads `input.default.number`: unless the input's
   * `default` is present and not null, that read throws, turning the failure
   * into a bare TypeError, so the `Input Id[..]` prefix and the original
   * fault are lost.
   */
  lemma InputFailureInGrid(g: J, k: nat)
    requires GridHeaderOk(g) && Has(g, "inputDefaults")
    requires k < |g.fields["inputs"].items|
    requires forall j :: 0 <= j < k ==> ValidateInputDriver(g.fields["inputs"].items[j], g).Pass?
    requires ValidateInputDriver(g.fields["inputs"].items[k], g).Fail?
    ensures
      var input := g.fields["inputs"].items[k];
      var e := ValidateInputDriver(input, g).error;
      ValidateInputGridDriver(g) ==
        if !Has(input, "default") || input.fields["default"].JNull? then Fail(Error([], TypeError))
        else Fail(Error([InInput(Prop(input.fields["default"], "number"))] + e.context, e.fault))
  {
    EveryFirstFailure(g.fields["inputs"].items, CheckInputOf(g), k);
  }

  /** The fields whose per-input check a grid's defaults switch off. */
  function SkippedFields(defaults: J): (r: set<string>)
    ensures forall f :: f in r ==> f in InheritableFields + {"height", "width"}
  {
    (set f | f in InheritableFields && Has(defaults, f))
    + (if Has(defaults, "shape") then {"height", "width"} else {})
  }

  /** Two inputs that differ at most in a field the defaults switch off validate alike. */
  lemma AgreeOutsideSkipped(a: J, b: J, g: J, f: string)
    requires a.JObj? && b.JObj?
    requires DefaultsReadable(g)
    requires f in SkippedFields(g.fields["inputDefaults"])
    requires forall k :: k != f ==> Prop(a, k) == Prop(b, k)
    ensures ValidateInputDriver(a, g) == ValidateInputDriver(b, g)
  {
    InheritableAgree(a, b, g.fields["inputDefaults"], f);
    OwnFieldsAgree(a, b, f);
  }

  /** The inheritance checks do not look at a field the defaults declare. */
  lemma InheritableAgree(a: J, b: J, d: J, f: string)
    requires (f in InheritableFields && Has(d, f)) || (Has(d, "shape") && (f == "height" || f == "width"))
    requires forall k :: k != f ==> Prop(a, k) == Prop(b, k)
    ensures ValidateInheritable(a, d) == ValidateInheritable(b, d)
  {
  }

  /** The input's own optional fields are none of the inheritable ones. */
  lemma OwnFieldsAgree(a: J, b: J, f: string)
    requires f != "handleWidth" && f != "handleHeight" && f != "value" && f != "availableColors"
    requires forall k :: k != f ==> Prop(a, k) == Prop(b, k)
    ensures ValidateInputOwn(a) == ValidateInputOwn(b)
  {
  }

  /**
   * Default inheritance: a field the grid's defaults declare is never looked at
   * on the input, so neither changing nor removing the input's own value can
   * change the outcome, even when that value is invalid. Declaring `shape`
   * also switches off the per-input `height` and `width` checks.
   */
  lemma InheritedFieldIgnored(fields: map<string, J>, g: J, f: string, v: J)
    requires DefaultsReadable(g)
    requires f in SkippedFields(g.fields["inputDefaults"])
    ensures ValidateInputDriver(JObj(fields[f := v]), g) == ValidateInputDriver(JObj(fields), g)
    ensures ValidateInputDriver(JObj(fields - {f}), g) == ValidateInputDriver(JObj(fields), g)
  {
    var input, changed, removed := JObj(fields), JObj(fields[f := v]), JObj(fields - {f});
    forall k | k != f ensures Prop(changed, k) == Prop(input, k) && Prop(removed, k) == Prop(input, k) {
    }
    AgreeOutsideSkipped(changed, input, g, f);
    AgreeOutsideSkipped(removed, input, g, f);
  }

  /** A grid without `inputDefaults` is always rejected, by a TypeError. */
  lemma MissingDefaultsAlwaysThrow(g: J)
    requires GridHeaderOk(g) && !Has(g, "inputDefaults")
    ensures ValidateInputGridDriver(g) == Fail(Error([], TypeError))
  {
  }

  /**
   * A grid's `inputDefaults`, when present, is never validated: a grid with
   * valid fields and no inputs is accepted whatever its defaults hold, even
   * defaults validateInputDefaults would reject.
   */
  lemma PresentDefaultsNeverValidated(g: J)
    requires GridHeaderOk(g) && Has(g, "inputDefaults")
    requires g.fields["inputs"].items == []
    ensures ValidateInputGridDriver(g).Pass?
  {
  }

  /** An input's `number` is checked first and is never taken from the defaults. */
  lemma NumberNeverInherited(input: J, g: J)
    requires input.JObj? && !IsNum(Prop(input, "number"))
    ensures ValidateInputDriver(input, g) == Fail(Error([], BadField(Input, "number")))
  {
  }

  /**
   * After valid device fields, grids and keyboard, the first failing
   * `controlSequence` entry decides the result, with no prefix.
   */
  lemma ControlSequenceFailureComesFirst(d: J, k: nat)
    requires DeviceHeaderOk(d)
    requires ValidateGrids(d.fields["inputGrids"].items).Pass?
    requires Has(d, "keyboard") ==> KeyboardOk(d.fields["keyboard"])
    requires Has(d, "controlSequence") && d.fields["controlSequence"].JArr?
    requires k < |d.fields["controlSequence"].items|
    requires forall j :: 0 <= j < k ==>
      ValidateControlSequenceMessage(d.fields["controlSequence"].items[j]).Pass?
    requires ValidateControlSequenceMessage(d.fields["controlSequence"].items[k]).Fail?
    ensures ValidateDeviceDriver(d) == ValidateControlSequenceMessage(d.fields["controlSequence"].items[k])
    ensures ValidateDeviceDriver(d).error.context == []
  {
    EveryFirstFailure(d.fields["controlSequence"].items, ValidateControlSequenceMessage, k);
    assert ValidateDeviceHeader(d).Pass?;
  }

  /**
   * An inheritable field that neither the input nor the grid's defaults supply
   * is reported as that field of the input: removing it from an otherwise
   * valid input makes the input fail on exactly that field.
   */
  lemma MissingFieldReported(fields: map<string, J>, g: J, f: string)
    requires ValidateInputDriver(JObj(fields), g).Pass?
    requires f in InheritableFields + {"height", "width"}
    requires f !in SkippedFields(g.fields["inputDefaults"])
    ensures ValidateInputDriver(JObj(fields - {f}), g) == Fail(Error([], BadField(Input, f)))
  {
    var input, removed := JObj(fields), JObj(fields - {f});
    forall k | k != f ensures Prop(removed, k) == Prop(input, k) {
    }
    assert Prop(removed, f).None?;
    var d := g.fields["inputDefaults"];
    assert ValidateInheritable(input, d).Pass?;
    assert ValidateInheritable(removed, d) == Bad(Input, f);
  }

  /** A field failure of the first failing input, as the grid reports it. */
  lemma FieldFailureInGrid(g: J, k: nat, input: J, f: string)
    requires GridHeaderOk(g) && Has(g, "inputDefaults")
    requires k < |g.fields["inputs"].items| && g.fields["inputs"].items[k] == input
    requires forall j :: 0 <= j < k ==> ValidateInputDriver(g.fields["inputs"].items[j], g).Pass?
    requires ValidateInputDriver(input, g) == Fail(Error([], BadField(Input, f)))
    ensures ValidateInputGridDriver(g) ==
      if !Has(input, "default") || input.fields["default"].JNull? then Fail(Error([], TypeError))
      else Fail(Error([InInput(Prop(input.fields["default"], "number"))], BadField(Input, f)))
  {
    var c := [InInput(if Has(input, "default") then Prop(input.fields["default"], "number") else None)];
    assert c + [] == c;
    InputFailureInGrid(g, k);
  }

  /**
   * The same inside a grid, when the input is the first to fail: the missing
   * field is reported behind `Input Id[<default.number>]: ` when the input's
   * `default` is present and not null, and is lost to a TypeError otherwise.
   */
  lemma MissingFieldInGrid(g: J, k: nat, fields: map<string, J>, f: string)
    requires GridHeaderOk(g) && Has(g, "inputDefaults")
    requires k < |g.fields["inputs"].items|
    requires forall j :: 0 <= j < k ==> ValidateInputDriver(g.fields["inputs"].items[j], g).Pass?
    requires g.fields["inputs"].items[k] == JObj(fields - {f})
    requires ValidateInputDriver(JObj(fields), g).Pass?
    requires f in InheritableFields + {"height", "width"}
    requires f !in SkippedFields(g.fields["inputDefaults"])
    ensures ValidateInputGridDriver(g) ==
      if "default" !in fields || fields["default"].JNull? then Fail(Error([], TypeError))
      else Fail(Error([InInput(Prop(fields["default"], "number"))], BadField(Input, f)))
  {
    var input := JObj(fields - {f});
    assert f != "default";
    assert Has(input, "default") <==> "default" in fields;
    MissingFieldReported(fields, g, f);
    FieldFailureInGrid(g, k, input, f);
  }
}
