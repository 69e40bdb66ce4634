/**
 * The status byte of a MIDI 1.0 channel voice message: the high nibble is
 * the message type, the low nibble the channel. The compound and catch-all
 * types of the driver format (`noteon/noteoff`, `unknown`, `octdown`,
 * `octup`) have no status byte.
 */
module Midi {
  import opened Wrappers

  function TypeNibble(eventType: string): Option<int> {
    match eventType
    case "noteoff" => Some(0x8)
    case "noteon" => Some(0x9)
    case "keypressure" => Some(0xA)
    case "controlchange" => Some(0xB)
    case "programchange" => Some(0xC)
    case "channelpressure" => Some(0xD)
    case "pitchbend" => Some(0xE)
    case _ => None
  }

  function TypeName(nibble: int): string
    requires 0x8 <= nibble <= 0xE
  {
    match nibble
    case 0x8 => "noteoff"
    case 0x9 => "noteon"
    case 0xA => "keypressure"
    case 0xB => "controlchange"
    case 0xC => "programchange"
    case 0xD => "channelpressure"
    case _ => "pitchbend"
  }

  function StatusByte(eventType: string, channel: int): (r: Option<int>)
    requires 0 <= channel < 16
    ensures r.Some? <==> TypeNibble(eventType).Some?
    ensures r.Some? ==> 0x80 <= r.value <= 0xEF && r.value % 16 == channel
  {
    match TypeNibble(eventType)
    case Some(n) => Some(n * 16 + channel)
    case None => None
  }

  /** The (type, channel) pair a status byte encodes, if it is a channel voice status. */
  function DecodeStatus(b: int): (r: Option<(string, int)>)
    ensures r.Some? <==> 0x80 <= b <= 0xEF
    ensures r.Some? ==> 0 <= r.value.1 < 16 && TypeNibble(r.value.0).Some?
  {
    if 0x80 <= b <= 0xEF then Some((TypeName(b / 16), b % 16)) else None
  }

  /** Decoding an encoded status recovers the event type and the channel. */
  lemma StatusRoundTrip(eventType: string, channel: int)
    requires 0 <= channel < 16 && TypeNibble(eventType).Some?
    ensures DecodeStatus(StatusByte(eventType, channel).value) == Some((eventType, channel))
  {
    var n := TypeNibble(eventType).value;
    assert (n * 16 + channel) / 16 == n;
  }

  /** Every channel voice status byte is the encoding of what it decodes to. */
  lemma DecodeRoundTrip(b: int)
    requires 0x80 <= b <= 0xEF
    ensures StatusByte(DecodeStatus(b).value.0, DecodeStatus(b).value.1) == Some(b)
  {
  }
}
