/**
 * A port pair with an attached driver: resetting the device's lights to their
 * default colours and running the vendor handshake (control sequence).
 *
 * The encoders the source calls (`ColorImpl.toMidiArray` and `setStatus`)
 * are kept symbolic: a sent message records the arguments it was built from.
 * MessageStatus gives them the MIDI 1.0 reading of the status byte.
 */
module PortService {
  import opened Wrappers
  import opened DriverTypes
  import Midi

  datatype Message =
      /** `new ColorImpl(color, number, channel).toMidiArray()` */
    | ColorMessage(color: Color, number: real, channel: Option<real>)
      /** `setStatus(bytes, status)` */
    | StatusMessage(bytes: seq<real>, status: string)

  // ---------------------------------------------------------------------------
  // Light reset

  /** `i.channel || defs.channel`: a missing channel and channel 0 both fall back. */
  function ResolvedChannel(i: InputDriver, defs: InputDefaults): (r: Option<real>)
    ensures i.channel.Some? && i.channel.value != 0.0 ==> r == i.channel
    ensures i.channel.None? || i.channel == Some(0.0) ==> r == defs.channel
  {
    if i.channel.Some? && i.channel.value != 0.0 then i.channel else defs.channel
  }

  /** `i.availableColors || defs.availableColors || []`: any array is truthy, even an empty one. */
  function Palette(i: InputDriver, defs: InputDefaults): (r: seq<Color>)
    ensures i.availableColors.Some? ==> r == i.availableColors.value
    ensures i.availableColors.None? && defs.availableColors.Some? ==> r == defs.availableColors.value
    ensures i.availableColors.None? && defs.availableColors.None? ==> r == []
  {
    if i.availableColors.Some? then i.availableColors.value
    else if defs.availableColors.Some? then defs.availableColors.value
    else []
  }

  predicate HasDefaultColor(palette: seq<Color>) {
    exists k :: 0 <= k < |palette| && palette[k].isDefault
  }

  /** `palette.filter((c) => c.default)[0]` */
  function FirstDefault(palette: seq<Color>): (c: Color)
    requires HasDefaultColor(palette)
    ensures c.isDefault
    ensures
      exists k :: 0 <= k < |palette| && palette[k] == c &&
        forall j :: 0 <= j < k ==> !palette[j].isDefault
  {
    if palette[0].isDefault then palette[0]
    else
      var c := FirstDefault(palette[1..]);
      assert forall k :: 0 <= k < |palette[1..]| ==> palette[1..][k] == palette[k + 1];
      c
  }

  /**
   * The source builds a colour from `undefined` when a non-empty palette has
   * no default colour; the model excludes that case.
   */
  predicate Lightable(i: InputDriver, defs: InputDefaults) {
    |Palette(i, defs)| == 0 || HasDefaultColor(Palette(i, defs))
  }

  predicate InputsLightable(inputs: seq<InputDriver>, defs: InputDefaults) {
    forall k :: 0 <= k < |inputs| ==> Lightable(inputs[k], defs)
  }

  predicate AllLightable(grids: seq<InputGridDriver>) {
    forall k :: 0 <= k < |grids| ==> InputsLightable(grids[k].inputs, grids[k].inputDefaults)
  }

  /**
   * What resetLights sends for one input: nothing when its palette is empty,
   * otherwise its first default colour. A non-empty palette without a default
   * colour, for which the source has no defined behaviour, yields nothing here;
   * resetLights requires that it does not occur.
   */
  function InputMessage(i: InputDriver, defs: InputDefaults): (r: seq<Message>)
    ensures |r| <= 1
    ensures Lightable(i, defs) ==> (r == [] <==> |Palette(i, defs)| == 0)
    ensures r != [] ==>
      && r[0].ColorMessage?
      && r[0].color.isDefault && r[0].color in Palette(i, defs)
      && HasDefaultColor(Palette(i, defs)) && r[0].color == FirstDefault(Palette(i, defs))
      && r[0].number == i.number
      && r[0].channel == ResolvedChannel(i, defs)
  {
    var palette := Palette(i, defs);
    if |palette| == 0 || !HasDefaultColor(palette) then []
    else [ColorMessage(FirstDefault(palette), i.number, ResolvedChannel(i, defs))]
  }

  /** The messages for a grid's inputs, in input order. */
  function InputsMessages(inputs: seq<InputDriver>, defs: InputDefaults): (r: seq<Message>)
    ensures inputs == [] ==> r == []
    ensures forall m :: m in r ==> m.ColorMessage? && m.color.isDefault
  {
    if inputs == [] then []
    else InputsMessages(inputs[..|inputs| - 1], defs) + InputMessage(inputs[|inputs| - 1], defs)
  }

  /** The messages for all grids, in grid order. */
  function ResetMessages(grids: seq<InputGridDriver>): (r: seq<Message>)
    ensures grids == [] ==> r == []
    ensures forall m :: m in r ==> m.ColorMessage? && m.color.isDefault
  {
    if grids == [] then []
    else
      var g := grids[|grids| - 1];
      ResetMessages(grids[..|grids| - 1]) + InputsMessages(g.inputs, g.inputDefaults)
  }

  /** One more input extends the grid's messages by that input's message. */
  lemma InputsMessagesStep(inputs: seq<InputDriver>, defs: InputDefaults, n: nat)
    requires n < |inputs|
    ensures InputsMessages(inputs[..n + 1], defs) == InputsMessages(inputs[..n], defs) + InputMessage(inputs[n], defs)
  {
    assert inputs[..n + 1][..n] == inputs[..n];
  }

  /** One more grid extends the messages by that grid's messages. */
  lemma ResetMessagesStep(grids: seq<InputGridDriver>, n: nat)
    requires n < |grids|
    ensures ResetMessages(grids[..n + 1]) == ResetMessages(grids[..n]) + InputsMessages(grids[n].inputs, grids[n].inputDefaults)
  {
    assert grids[..n + 1][..n] == grids[..n];
  }

  /** Sequence concatenation is associative; used to extend a log by one more block. */
  lemma AppendAssoc<T>(a: seq<T>, b: seq<T>, c: seq<T>)
    ensures (a + b) + c == a + (b + c)
  {
  }

  function InputCount(grids: seq<InputGridDriver>): nat {
    if grids == [] then 0 else InputCount(grids[..|grids| - 1]) + |grids[|grids| - 1].inputs|
  }

  // ---------------------------------------------------------------------------
  // Handshake

  /** One setStatus message per 4-tuple, in declared order. */
  function HandshakeMessages(sequence: seq<ControlSequenceMessage>): (r: seq<Message>)
    ensures |r| == |sequence|
    ensures forall k :: 0 <= k < |sequence| ==>
      r[k] == StatusMessage([sequence[k].channel, sequence[k].data1, sequence[k].data2], sequence[k].status)
  {
    if sequence == [] then []
    else
      var m := sequence[|sequence| - 1];
      HandshakeMessages(sequence[..|sequence| - 1]) + [StatusMessage([m.channel, m.data1, m.data2], m.status)]
  }

  function ControlSequenceMessages(driver: DeviceDriver): (r: seq<Message>)
    ensures driver.controlSequence.None? ==> r == []
  {
    match driver.controlSequence
    case None => []
    case Some(sequence) => HandshakeMessages(sequence)
  }

  // ---------------------------------------------------------------------------
  // The MIDI reading of a sent message

  /** A channel number 0..15 as an integer. */
  function ChannelOf(x: real): (r: Option<int>)
    ensures r.Some? ==> 0 <= r.value < 16 && r.value as real == x
  {
    if 0.0 <= x <= 15.0 && x.Floor as real == x then Some(x.Floor) else None
  }

  /**
   * The status byte of a sent message: its event type and, as the low nibble,
   * its channel. There is one exactly when the type is a channel voice type
   * and the channel is an integer in 0..15, and it decodes back to both.
   */
  function MessageStatus(m: Message): (r: Option<int>)
    ensures m.ColorMessage? ==>
      (r.Some? <==> m.channel.Some? && ChannelOf(m.channel.value).Some?
                    && Midi.TypeNibble(m.color.eventType).Some?)
    ensures m.ColorMessage? && r.Some? ==>
      Midi.DecodeStatus(r.value) == Some((m.color.eventType, ChannelOf(m.channel.value).value))
    ensures m.StatusMessage? ==>
      (r.Some? <==> |m.bytes| > 0 && ChannelOf(m.bytes[0]).Some? && Midi.TypeNibble(m.status).Some?)
    ensures m.StatusMessage? && r.Some? ==>
      Midi.DecodeStatus(r.value) == Some((m.status, ChannelOf(m.bytes[0]).value))
  {
    match m
    case ColorMessage(color, _, channel) =>
      if channel.Some? && ChannelOf(channel.value).Some? && Midi.TypeNibble(color.eventType).Some? then
        Midi.StatusRoundTrip(color.eventType, ChannelOf(channel.value).value);
        Midi.StatusByte(color.eventType, ChannelOf(channel.value).value)
      else None
    case StatusMessage(bytes, status) =>
      if |bytes| > 0 && ChannelOf(bytes[0]).Some? && Midi.TypeNibble(status).Some? then
        Midi.StatusRoundTrip(status, ChannelOf(bytes[0]).value);
        Midi.StatusByte(status, ChannelOf(bytes[0]).value)
      else None
  }

  // ---------------------------------------------------------------------------
  // Properties of what is sent

  /** Grid order: the messages for `a + b` are those for `a`, then those for `b`. */
  lemma {:induction false} ResetMessagesAppend(a: seq<InputGridDriver>, b: seq<InputGridDriver>)
    ensures ResetMessages(a + b) == ResetMessages(a) + ResetMessages(b)
  {
    assert forall k :: 0 <= k < |a + b| ==> (a + b)[k] == if k < |a| then a[k] else b[k - |a|];
    if b != [] {
      var b' := b[..|b| - 1];
      assert (a + b)[..|a + b| - 1] == a + b';
      ResetMessagesAppend(a, b');
    } else {
      assert a + b == a;
    }
  }

  /** At most one message per input. */
  lemma {:induction false} InputsMessagesAtMostOnePerInput(inputs: seq<InputDriver>, defs: InputDefaults)
    ensures |InputsMessages(inputs, defs)| <= |inputs|
  {
    if inputs != [] {
      var prefix := inputs[..|inputs| - 1];
      InputsMessagesAtMostOnePerInput(prefix, defs);
    }
  }

  /** resetLights sends at most one message per input across all grids. */
  lemma {:induction false} ResetMessagesAtMostOnePerInput(grids: seq<InputGridDriver>)
    ensures |ResetMessages(grids)| <= InputCount(grids)
  {
    if grids != [] {
      var prefix, g := grids[..|grids| - 1], grids[|grids| - 1];
      ResetMessagesAtMostOnePerInput(prefix);
      InputsMessagesAtMostOnePerInput(g.inputs, g.inputDefaults);
    }
  }

  /** An input's own palette wins whenever present: an own empty palette sends nothing. */
  lemma OwnEmptyPaletteSendsNothing(i: InputDriver, defs: InputDefaults)
    requires i.availableColors == Some([])
    ensures Lightable(i, defs) && InputMessage(i, defs) == []
  {
  }

  /** Channel 0 is falsy: like a missing channel, it falls back to the grid default's. */
  lemma ZeroChannelFallsBack(i: InputDriver, defs: InputDefaults)
    requires i.channel == None || i.channel == Some(0.0)
    requires Lightable(i, defs) && |Palette(i, defs)| > 0
    ensures InputMessage(i, defs)[0].channel == defs.channel
  {
  }

  /**
   * The k-th handshake message carries the k-th entry's status type and, in
   * the low nibble of its status byte, the entry's element 3 as the channel.
   */
  lemma {:induction false} HandshakeStatusDecodes(sequence: seq<ControlSequenceMessage>, k: nat)
    requires k < |sequence|
    requires Midi.TypeNibble(sequence[k].status).Some? && ChannelOf(sequence[k].channel).Some?
    ensures MessageStatus(HandshakeMessages(sequence)[k]).Some?
    ensures Midi.DecodeStatus(MessageStatus(HandshakeMessages(sequence)[k]).value) ==
      Some((sequence[k].status, ChannelOf(sequence[k].channel).value))
  {
    Midi.StatusRoundTrip(sequence[k].status, ChannelOf(sequence[k].channel).value);
  }

  /**
   * A light-reset message's status byte decodes to the default colour's event
   * type and the input's resolved channel.
   */
  lemma ResetStatusDecodes(i: InputDriver, defs: InputDefaults)
    requires Lightable(i, defs) && |Palette(i, defs)| > 0
    requires Midi.TypeNibble(FirstDefault(Palette(i, defs)).eventType).Some?
    requires ResolvedChannel(i, defs).Some? && ChannelOf(ResolvedChannel(i, defs).value).Some?
    ensures
      var status := MessageStatus(InputMessage(i, defs)[0]);
      status.Some? &&
      Midi.DecodeStatus(status.value) ==
        Some((FirstDefault(Palette(i, defs)).eventType, ChannelOf(ResolvedChannel(i, defs).value).value))
  {
    Midi.StatusRoundTrip(FirstDefault(Palette(i, defs)).eventType, ChannelOf(ResolvedChannel(i, defs).value).value);
  }

  // ---------------------------------------------------------------------------
  // The port pair

  /** The wrapped port; all it does here is record what is sent, in order. */
  class PortPair {
    var sent: seq<Message>

    constructor()
      ensures sent == []
    {
      sent := [];
    }

    method Send(m: Message)
      modifies this
      ensures sent == old(sent) + [m]
    {
      sent := sent + [m];
    }
  }

  class DrivenPortPair {
    const pair: PortPair
    const driver: DeviceDriver

    constructor(pair: PortPair, driver: DeviceDriver)
      ensures this.pair == pair && this.driver == driver
    {
      this.pair := pair;
      this.driver := driver;
    }

    /** Reset all of the lights on the device to their initial state. */
    method ResetLights()
      requires AllLightable(driver.inputGrids)
      modifies pair
      ensures pair.sent == old(pair.sent) + ResetMessages(driver.inputGrids)
    {
      var grids := driver.inputGrids;
      var gi := 0;
      while gi < |grids|
        invariant 0 <= gi <= |grids|
        invariant pair.sent == old(pair.sent) + ResetMessages(grids[..gi])
      {
        ResetMessagesStep(grids, gi);
        AppendAssoc(old(pair.sent), ResetMessages(grids[..gi]), InputsMessages(grids[gi].inputs, grids[gi].inputDefaults));
        ResetGridLights(grids[gi]);
        gi := gi + 1;
      }
      assert grids[..gi] == grids;
    }

    /** The body of resetLights' outer forEach: one grid's inputs, in order. */
    method ResetGridLights(ig: InputGridDriver)
      requires InputsLightable(ig.inputs, ig.inputDefaults)
      modifies pair
      ensures pair.sent == old(pair.sent) + InputsMessages(ig.inputs, ig.inputDefaults)
    {
      var ii := 0;
      while ii < |ig.inputs|
        invariant 0 <= ii <= |ig.inputs|
        invariant pair.sent == old(pair.sent) + InputsMessages(ig.inputs[..ii], ig.inputDefaults)
      {
        AppendAssoc(old(pair.sent), InputsMessages(ig.inputs[..ii], ig.inputDefaults), InputMessage(ig.inputs[ii], ig.inputDefaults));
        ResetInputLight(ig.inputs[ii], ig.inputDefaults);
        InputsMessagesStep(ig.inputs, ig.inputDefaults, ii);
        ii := ii + 1;
      }
      assert ig.inputs[..ii] == ig.inputs;
    }

    /** The body of resetLights' inner forEach: light one input with its default colour. */
    method ResetInputLight(i: InputDriver, defs: InputDefaults)
      requires Lightable(i, defs)
      modifies pair
      ensures pair.sent == old(pair.sent) + InputMessage(i, defs)
    {
      var channel := if i.channel.Some? && i.channel.value != 0.0 then i.channel else defs.channel;
      var availableColors :=
        if i.availableColors.Some? then i.availableColors.value
        else if defs.availableColors.Some? then defs.availableColors.value
        else [];
      assert availableColors == Palette(i, defs);
      if |availableColors| != 0 {
        var defColor := FirstDefault(availableColors);
        pair.Send(ColorMessage(defColor, i.number, channel));
      }
    }

    /**
     * Send the vendor handshake that hands control of the lights to the host;
     * a driver without a control sequence sends nothing.
     */
    method RunControlSequence()
      modifies pair
      ensures pair.sent == old(pair.sent) + ControlSequenceMessages(driver)
    {
      if driver.controlSequence.Some? {
        var sequence := driver.controlSequence.value;
        var k := 0;
        while k < |sequence|
          invariant 0 <= k <= |sequence|
          invariant pair.sent == old(pair.sent) + HandshakeMessages(sequence[..k])
        {
          var msgArray := sequence[k];
          assert sequence[..k + 1][..k] == sequence[..k];
          pair.Send(StatusMessage([msgArray.channel, msgArray.data1, msgArray.data2], msgArray.status));
          k := k + 1;
        }
        assert sequence[..k] == sequence;
      }
    }
  }
}
