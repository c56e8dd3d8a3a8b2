/**
 The decoded MIDI messages the sketch reacts to. Byte-level decoding is done
 by the wmidi library and is not part of this model: a frame that wmidi
 rejects arrives here as `Invalid`, every message kind the sketch does not
 match arrives as `Other`.
 */
module Midi {

  /** A 7-bit MIDI data value: note number, velocity, controller id or value. */
  type U7 = x: int | 0 <= x <= 127

  /** A note number (wmidi's `Note`, 0..127). */
  type Note = U7

  /** A MIDI channel, numbered 1..16 as wmidi names them (`Ch1` .. `Ch16`). */
  type Channel = c: int | 1 <= c <= 16 witness 1

  /** The controller ids the sketch listens to (wmidi's `ControlFunction`). */
  const ModulationWheel: U7 := 1
  const SoundController5: U7 := 74

  datatype Msg =
    | Invalid
    | NoteOn(channel: Channel, note: Note, velocity: U7)
    | NoteOff(channel: Channel, note: Note, velocity: U7)
    | ControlChange(channel: Channel, control: U7, value: U7)
    | Other
}
