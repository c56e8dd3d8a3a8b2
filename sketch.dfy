/**
 The sketch's `Model` and its per-frame `update`, as a class whose fields are
 changed in place. The window rectangle and the drift computed from the clock
 are passed in; the drained MIDI queue is a sequence of decoded messages.
 */
module Sketch {
  import opened Midi
  import opened Particles
  import opened Mapping
  import opened Registry
  import opened Frames

  class Model {
    const kinds: Kinds
    var rotatingParticles: Registry
    var rippleCircles: Registry
    var modifier: Modifier

    /** The modifier stays within the bounds its controllers can reach. */
    ghost predicate Valid()
      reads this
    {
      ModifierInRange(modifier)
    }

    /** The abstract value of the model. */
    function Snapshot(): State
      reads this
    {
      State(rotatingParticles, rippleCircles, modifier)
    }

    /** `model()`: empty registries and a neutral modifier. */
    constructor (kinds: Kinds)
      ensures Valid() && this.kinds == kinds
      ensures Snapshot() == Initial
    {
      this.kinds := kinds;
      rotatingParticles := map[];
      rippleCircles := map[];
      modifier := NeutralModifier;
    }

    /**
     One decoded message, as the body of `update`'s drain loop handles it.
     A note-off unwraps the entity it releases, so the caller must not send a
     note-off for a note without an entity.
     */
    method Step(msg: Msg, win: Rect)
      requires Valid() && CanApply(Snapshot(), msg)
      modifies this
      ensures Valid()
      ensures Snapshot() == Apply(kinds, win, old(Snapshot()), msg)
    {
      match msg
      case ControlChange(_, control, value) =>
        if control == ModulationWheel {
          modifier := modifier.(scale := Remap(value, MaxRadiusScale));
        } else if control == SoundController5 {
          modifier := modifier.(accelerator := Remap(value, MaxAccelerator));
        }
      case NoteOn(channel, note, velocity) =>
        var center := SpawnPoint(note, velocity, win);
        if channel == 1 {
          rotatingParticles := rotatingParticles[note := Spawn(kinds.rotating, center, velocity)];
        } else {
          rippleCircles := rippleCircles[note := Spawn(kinds.ripple, center, velocity)];
        }
      case NoteOff(channel, note, _) =>
        if channel == 1 {
          rotatingParticles := rotatingParticles[note := rotatingParticles[note].(held := false)];
        } else {
          rippleCircles := rippleCircles[note := rippleCircles[note].(held := false)];
        }
      case Invalid =>
      case Other =>
    }

    /** The retain pass: both registries drop their expired entities and keep the rest unchanged. */
    method Evict()
      requires Valid()
      modifies this
      ensures Valid() && modifier == old(modifier)
      ensures rotatingParticles == Retained(old(rotatingParticles))
      ensures rippleCircles == Retained(old(rippleCircles))
      ensures AllLive(rotatingParticles) && AllLive(rippleCircles)
    {
      rotatingParticles := Retain(rotatingParticles);
      rippleCircles := Retain(rippleCircles);
      RetainedFixpoint(old(rotatingParticles));
      RetainedFixpoint(old(rippleCircles));
    }

    /**
     `update`: apply the drained messages in order, evict, set the drift, then
     advance every entity once.
     */
    method Update(msgs: seq<Msg>, win: Rect, shift: Point)
      requires Valid() && NoPanic(kinds, win, Snapshot(), msgs)
      modifies this
      ensures Valid()
      ensures Snapshot() == NextFrame(kinds, win, shift, old(Snapshot()), msgs)
    {
      ghost var s0 := Snapshot();
      for i := 0 to |msgs|
        invariant Valid()
        invariant Snapshot() == ApplyAll(kinds, win, s0, msgs[..i])
      {
        NoPanicAt(kinds, win, s0, msgs, i);
        Step(msgs[i], win);
        assert msgs[..i + 1][..i] == msgs[..i];
      }
      assert msgs[..|msgs|] == msgs;
      Evict();
      modifier := modifier.(centerShift := shift);
      rotatingParticles := UpdateEach(rotatingParticles, kinds.rotating, modifier);
      rippleCircles := UpdateEach(rippleCircles, kinds.ripple, modifier);
    }
  }

  /** A client: a note played and released with the wheel halfway, in one frame, from a fresh model. */
  method PlayAndRelease(kinds: Kinds, win: Rect, shift: Point) returns (m: Model)
    ensures fresh(m) && m.Valid()
    ensures m.modifier.scale == 1.0 + 256.0 / 127.0
    ensures kinds.rotating.initialLifetime(100) > 0 ==>
      60 in m.rotatingParticles && m.rippleCircles == map[]
  {
    m := new Model(kinds);
    var msgs := [NoteOn(1, 60, 100), ControlChange(1, ModulationWheel, 64), NoteOff(1, 60, 0)];
    PlayReleaseScenario(kinds, win);
    m.Update(msgs, win, shift);
    NextFrameEvictsThenUpdates(kinds, win, shift, Initial, msgs);
  }
}
