# nannou-midi frame logic in Dafny

A model of the per-frame `update` of the nannou-midi sketch (`src/main.rs`):
each frame it drains the queue of decoded MIDI messages and applies them in
order to its state, then evicts the expired entities, then advances every
surviving entity one step. The state is two registries keyed by note,
`rotating_particles` and `ripple_circles`, and a `Modifier` holding `scale`,
`accelerator` and `center_shift`.

- A note-on on channel 1 spawns a rotating particle. A note-on on any other
  channel spawns a ripple. Either way it replaces whatever entity the note
  already had. The key is the note alone, not the note and the channel.
- A note-off clears `held` on the note's entity in the registry its channel selects.
- The modulation wheel (controller 1) sets `scale := 1 + 4 * value / 127`.
- Sound controller 5 (controller 74) sets `accelerator` by the same formula.
- Every other controller, every other message kind and every undecodable
  frame is ignored.
- Spawn coordinates are piecewise. Notes 48..72 are spread over the window's
  width with `map_range`, and their velocity over its height. Other notes use
  `w * n / 127 - w / 2` and `-h / 2 * v / 127 + h / 2`.
- The retain pass keeps exactly the entries whose `lifetime > 0`. It runs
  after the whole queue and before the update pass.

Modules, one per component:

- `Midi` (`midi.dfy`): the decoded message type and the two controller ids.
- `Particles` (`particles.dfy`): points, the modifier, entities, and what an
  entity variant's constructor and update contribute (`Behaviour`).
- `Mapping` (`mapping.dfy`): the constants of `src/main.rs:20-24`,
  `map_range`, the spawn point and the controller remap.
- `Registry` (`registry.dfy`): insert, release, retain and the update pass on
  one map. `Retain` and `UpdateEach` are loop methods proved equal to the
  functions `Retained` and `Advanced`.
- `Frames` (`frames.dfy`): the state as a value, one message (`Apply`), a
  queue (`ApplyAll`), the whole frame (`NextFrame`), and the lemmas.
- `Sketch` (`sketch.dfy`): the class `Model`. Its `Step`, `Evict` and `Update`
  change the fields in place and are each proved to produce the
  corresponding function of the old state.

Arithmetic is over `real`, an idealisation of f32. The window is centred on
the origin: `left = -w/2`, `right = w/2`. `map_range` is nannou's linear
interpolation `(v - inMin) / (inMax - inMin) * (outMax - outMin) + outMin`.

Notes on the code as written:

- Eviction runs before the update pass (`src/main.rs:126-139`), so an entity
  whose lifetime reaches 0 during an update stays until the next frame's retain.
- Notes outside 48..72 map their velocity onto the upper half of the window,
  `[0, h/2]` (`src/main.rs:97-98`).
- A note-off for a note without an entity panics in `unwrap`
  (`src/main.rs:114,116`). See "## Findings".
- The registries are keyed by the note alone (`src/main.rs:27-28`), even
  though the channel chooses the registry (`src/main.rs:102,113`).
- `update` assigns `center_shift` (`src/main.rs:132`), but the `Modifier`
  struct in `src/particles.rs:58-62` has no such field. The model gives
  `Modifier` a `centerShift` that defaults to the origin.

## Model

| member | source | states |
|---|---|---|
| Mapping.MapRange | src/main.rs:79-92 | linear interpolation sends the input bounds to the output bounds and keeps an in-range input inside the output range |
| Mapping.SpawnPoint | src/main.rs:72-100 | for a non-negative window, band notes land inside the window, other notes inside its width and upper half; band ends map to the left and right edges, velocity 0 to the bottom edge (band) or the top edge (off band) |
| Mapping.BandPoint | src/main.rs:78-93 | a band note lands inside the window; notes 48 and 72 on the left and right edges, velocities 0 and 127 on the bottom and top edges |
| Mapping.FallbackPoint | src/main.rs:94-99 | an off-band note lands inside the window's width and upper half; velocity 0 on the top edge, velocity 127 on the centre line |
| Mapping.SevenBitScale | src/main.rs:95-97 | a non-negative length scaled by k/127, k in 0..127, stays within [0, length] and reaches both ends |
| Mapping.Remap | src/main.rs:59-67 | value 0 gives 1, value 127 gives the ceiling, and every value lands in [1, ceiling] |
| Mapping.RemapMonotone | src/main.rs:59-67 | the remap is non-decreasing in the controller value |
| Mapping.ApplyControl | src/main.rs:57-69 | the modulation wheel writes only the scale, sound controller 5 only the accelerator, other controllers nothing; the [1, 5] bounds are preserved |
| Registry.Insert | src/main.rs:102-110 | after insert the note maps to the new entity, the key set gains that note and every other note keeps its entity |
| Registry.InsertPresentKeepsSize | src/main.rs:103-109 | replacing a note that has an entity keeps the key set and the size |
| Registry.InsertAbsentGrows | src/main.rs:103-109 | inserting a new note grows the registry by exactly one |
| Registry.Release | src/main.rs:112-118 | releasing clears `held` on that note's entity only, keeps every key and every other entity, and ignores a note without an entity |
| Registry.Retained | src/main.rs:126-129 | an entry survives the retain exactly when its lifetime is positive, and survives unchanged |
| Registry.RetainedFixpoint | src/main.rs:126-129 | after retain every entry is live; retain is idempotent and is the identity exactly when all entries are live |
| Registry.Advanced | src/main.rs:133-139 | the update pass keeps the keys and replaces every entity by its variant's update under the modifier |
| Registry.Retain | src/main.rs:126-129 | the entry-by-entry retain loop computes `Retained` |
| Registry.UpdateEach | src/main.rs:133-139 | the entry-by-entry update loop computes `Advanced` |
| Frames.CanApply | src/main.rs:112-118 | definition: the condition under which the `unwrap` of a note-off does not panic; characterised by `NoteOffReleases`, `StrayNoteOffPanics` and `NoPanicAt` |
| Frames.Apply | src/main.rs:50-122 | definition: one decoded message applied to the state, the reference for `Sketch.Model.Step`; characterised by the single-message lemmas below |
| Frames.ApplyAll | src/main.rs:49-123 | definition: the drained queue applied first to last; characterised by `ApplyAllAppend`, `ApplyAllIgnored` and `ApplyAllKeepsModifierInRange` |
| Frames.NoPanic | src/main.rs:49-123 | definition: no message of the queue panics when applied in order; characterised by `NoPanicAt` and `StrayNoteOffPanics` |
| Frames.NextFrame | src/main.rs:48-140 | definition: drain, retain, set the drift, update; the reference for `Sketch.Model.Update`; characterised by `NextFrameEvictsThenUpdates` |
| Frames.NoteOnRotating | src/main.rs:102-105 | a channel-1 note-on inserts a held particle built from the mapped point and the velocity; ripples and modifier unchanged |
| Frames.NoteOnRipple | src/main.rs:106-110 | a note-on on any other channel inserts a held ripple; particles and modifier unchanged |
| Frames.NoteOnInsideWindow | src/main.rs:72-110 | the spawned entity's centre lies inside the window, in its upper half for off-band notes |
| Frames.NoteOnReplaces | src/main.rs:103-109 | a note-on for a note already present keeps the key set and size of its registry and every other note's entity |
| Frames.RipplesKeyedByNoteOnly | src/main.rs:106-110 | two note-ons for one note on two non-1 channels leave a single ripple, the later one |
| Frames.NoteOffReleases | src/main.rs:112-118 | a note-off that finds its entity changes only that entity's `held` to false; the other registry and the modifier are unchanged |
| Frames.StrayNoteOffIgnored | src/main.rs:112-118 | in the corrected semantics a note-off without an entity leaves the state unchanged |
| Frames.StrayNoteOffPanics | src/main.rs:112-118 | as written, a note-off whose note has no entity in the registry its channel selects panics, from any state and after any queue |
| Frames.FirstNoteOffPanics | src/main.rs:112-118 | as written, a fresh sketch panics on a note-off as its first message, for every channel and note |
| Frames.ModulationWheelSetsScale | src/main.rs:57-62 | the modulation wheel sets scale to 1 + 4v/127 (1 at 0, 5 at 127) and changes nothing else |
| Frames.SoundController5SetsAccelerator | src/main.rs:63-68 | sound controller 5 sets accelerator to 1 + 4v/127 (1 at 0, 5 at 127) and changes nothing else |
| Frames.ControlChangeMonotone | src/main.rs:57-69 | a larger controller value never yields a smaller scale or accelerator |
| Frames.IgnoredMessages | src/main.rs:49-122 | other controllers, undecodable frames and unmatched message kinds leave the whole state unchanged |
| Frames.ApplyAllAppend | src/main.rs:49-123 | messages take effect in queue order: draining a + b equals draining a and then b |
| Frames.ApplyAllIgnored | src/main.rs:49-123 | a queue of undecodable frames and unmatched kinds changes nothing |
| Frames.ApplyAllKeepsModifierInRange | src/main.rs:57-69 | scale and accelerator stay within [1, 5] across any queue |
| Frames.NoPanicAt | src/main.rs:112-118 | in a queue the code survives, every note-off finds its entity in the state its predecessors left |
| Frames.NextFrameEvictsThenUpdates | src/main.rs:125-139 | an entity is in the next frame exactly when the drained state held it with positive lifetime, and it has taken one update under the modifier with the new drift |
| Frames.LastNoteOnSurvivesFrame | src/main.rs:102-129 | a channel-1 note-on at the end of the queue with a positive initial lifetime is present after the frame |
| Frames.PlayReleaseScenario | src/main.rs:57-118 | note-on 60, wheel at 64, note-off 60: the code survives, one released particle remains, scale is 1 + 256/127 |
| Sketch.Model.constructor | src/main.rs:39-45 | a new model has empty registries and the neutral modifier |
| Sketch.Model.Step | src/main.rs:50-121 | one message updates the fields exactly as `Apply` does, provided a note-off finds its entity, and keeps the modifier within bounds |
| Sketch.Model.Evict | src/main.rs:125-129 | both registries become their retained selves, all entries live, modifier unchanged |
| Sketch.Model.Update | src/main.rs:48-140 | the whole frame leaves the fields equal to `NextFrame` of the old state and keeps the modifier within bounds |
| Sketch.PlayAndRelease | src/main.rs:48-140 | a client frame from a fresh model: the scale is 1 + 256/127, and the particle is present when its initial lifetime is positive |

## Left out

- `src/midi.rs`: port enumeration, the device name and the input callback are hardware I/O. The queue arrives as a sequence of decoded messages.
- Byte decoding by wmidi (`MidiMessage::try_from`) is a foreign library. Its failures appear as `Invalid`, and `print!` on them is left out.
- `view` and window creation are rendering only. The window rectangle is a parameter.
- The clock: the drift `center_shift` is computed from `cos`/`sin` of the elapsed time, so it is a parameter of `Update`.
- `RotatingParticle` and `RippleCircle`: their constructors and update rules are not defined in `src/particles.rs`, from which `src/main.rs:3` imports them. They are a `Behaviour` parameter: an initial lifetime for a velocity, and an update step. Colours, orbits and radii are not modelled.
- Particles.Spawn: stands in for `RotatingParticle::new` and `RippleCircle::new`, which are not defined in `src/particles.rs`. The model assumes a new entity is held and keeps the centre and velocity it was given. Its initial lifetime is the variant's `initialLifetime` of the velocity, not a fixed function.
- `Particle` in `src/particles.rs` is unused by the frame logic. Only `Modifier::new`'s defaults are used.
- f32 rounding: arithmetic is over exact reals.
- HashMap iteration order: the retain and update loops visit keys in an arbitrary order. Their results do not depend on it.

## Findings

| source | as written | input that shows it | evidently intended | confidence | as-written member | corrected member |
|---|---|---|---|---|---|---|
| src/main.rs:114-116 | a note-off unwraps the looked-up entity and panics when the note has none | a NoteOff on channel 1, note 60, as the first message a fresh model receives | a note-off without a live entity is ignored | not executed | Frames.StrayNoteOffPanics | Registry.Release |
