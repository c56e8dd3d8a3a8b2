/**
 What one frame of the sketch does to its state, as functions: each drained
 message is applied in queue order, then expired entities are evicted, then
 the drift is set and every remaining entity takes one update step.
 */
module Frames {
  import opened Midi
  import opened Particles
  import opened Mapping
  import opened Registry

  /** The two entity variants' constructors and update rules. */
  datatype Kinds = Kinds(rotating: Behaviour, ripple: Behaviour)

  /** The sketch's mutable state: both registries and the modifier. */
  datatype State = State(rotating: Registry, ripples: Registry, modifier: Modifier)

  /** The state the sketch starts with: no entities, neutral modifier. */
  const Initial := State(map[], map[], NeutralModifier)

  /** Channel 1 feeds the rotating particles; every other channel the ripples. */
  predicate IsRotatingChannel(ch: Channel) {
    ch == 1
  }

  /** The registry a note message on `ch` addresses. */
  function Routed(s: State, ch: Channel): Registry {
    if IsRotatingChannel(ch) then s.rotating else s.ripples
  }

  /**
   Whether the sketch survives `msg` in state `s`: a note-off unwraps the
   entity it releases, so that entity must exist.
   */
  predicate CanApply(s: State, msg: Msg) {
    msg.NoteOff? ==> msg.note in Routed(s, msg.channel)
  }

  /**
   One decoded message applied to the state. A note-off whose note has no
   entity is ignored here (see `CanApply` for the sketch as written).
   */
  function Apply(kinds: Kinds, win: Rect, s: State, msg: Msg): State {
    match msg
    case ControlChange(_, control, value) =>
      s.(modifier := ApplyControl(s.modifier, control, value))
    case NoteOn(ch, note, velocity) =>
      var center := SpawnPoint(note, velocity, win);
      if IsRotatingChannel(ch) then
        s.(rotating := Insert(s.rotating, note, Spawn(kinds.rotating, center, velocity)))
      else
        s.(ripples := Insert(s.ripples, note, Spawn(kinds.ripple, center, velocity)))
    case NoteOff(ch, note, _) =>
      if IsRotatingChannel(ch) then s.(rotating := Release(s.rotating, note))
      else s.(ripples := Release(s.ripples, note))
    case _ => s
  }

  /** The messages applied one after another, first to last. */
  function ApplyAll(kinds: Kinds, win: Rect, s: State, msgs: seq<Msg>): State
    decreases |msgs|
  {
    if msgs == [] then s
    else Apply(kinds, win, ApplyAll(kinds, win, s, msgs[..|msgs| - 1]), msgs[|msgs| - 1])
  }

  /** No message of the queue makes the sketch panic when the queue is applied in order from `s`. */
  predicate NoPanic(kinds: Kinds, win: Rect, s: State, msgs: seq<Msg>)
    decreases |msgs|
  {
    msgs == [] ||
    (NoPanic(kinds, win, s, msgs[..|msgs| - 1]) &&
     CanApply(ApplyAll(kinds, win, s, msgs[..|msgs| - 1]), msgs[|msgs| - 1]))
  }

  /**
   The whole frame: drain the queue, evict the expired entities, set the
   drift, then advance every surviving entity under the new modifier.
   */
  function NextFrame(kinds: Kinds, win: Rect, shift: Point, s: State, msgs: seq<Msg>): State {
    var drained := ApplyAll(kinds, win, s, msgs);
    var m := drained.modifier.(centerShift := shift);
    State(Advanced(Retained(drained.rotating), kinds.rotating, m),
          Advanced(Retained(drained.ripples), kinds.ripple, m),
          m)
  }

  // ---------------------------------------------------------------------------
  // Single messages

  /** A note-on on channel 1 spawns a held rotating particle at the mapped point; nothing else changes. */
  lemma NoteOnRotating(kinds: Kinds, win: Rect, s: State, note: Note, velocity: U7)
    ensures var s' := Apply(kinds, win, s, NoteOn(1, note, velocity));
      && s'.rotating == s.rotating[note := Spawn(kinds.rotating, SpawnPoint(note, velocity, win), velocity)]
      && s'.rotating[note].held
      && s'.rotating[note].velocity == velocity
      && s'.ripples == s.ripples && s'.modifier == s.modifier
  {
  }

  /** A note-on on any other channel spawns a held ripple at the mapped point; nothing else changes. */
  lemma NoteOnRipple(kinds: Kinds, win: Rect, s: State, ch: Channel, note: Note, velocity: U7)
    requires ch != 1
    ensures var s' := Apply(kinds, win, s, NoteOn(ch, note, velocity));
      && s'.ripples == s.ripples[note := Spawn(kinds.ripple, SpawnPoint(note, velocity, win), velocity)]
      && s'.ripples[note].held
      && s'.ripples[note].velocity == velocity
      && s'.rotating == s.rotating && s'.modifier == s.modifier
  {
  }

  /** A spawned entity's centre lies in the window (in its upper half outside the melodic band). */
  lemma NoteOnInsideWindow(kinds: Kinds, win: Rect, s: State, ch: Channel, note: Note, velocity: U7)
    requires 0.0 <= win.w && 0.0 <= win.h
    ensures var c := Routed(Apply(kinds, win, s, NoteOn(ch, note, velocity)), ch)[note].center;
      && win.Left() <= c.x <= win.Right()
      && (if InBand(note) then win.Bottom() else 0.0) <= c.y <= win.Top()
  {
  }

  /**
   A note-on for a note that already has an entity replaces it: the keys, and
   so the size, of the registry stay the same and every other note keeps its
   entity. The key is the note alone, whatever the channel.
   */
  lemma NoteOnReplaces(kinds: Kinds, win: Rect, s: State, ch: Channel, note: Note, velocity: U7)
    requires note in Routed(s, ch)
    ensures var r' := Routed(Apply(kinds, win, s, NoteOn(ch, note, velocity)), ch);
      && r'.Keys == Routed(s, ch).Keys
      && |r'| == |Routed(s, ch)|
      && forall k :: k in r' && k != note ==> r'[k] == Routed(s, ch)[k]
  {
    var e := Spawn(if IsRotatingChannel(ch) then kinds.rotating else kinds.ripple,
                   SpawnPoint(note, velocity, win), velocity);
    InsertPresentKeepsSize(Routed(s, ch), note, e);
  }

  /** Two note-ons for one note on two ripple channels leave one ripple: the later one. */
  lemma RipplesKeyedByNoteOnly(kinds: Kinds, win: Rect, s: State, ch1: Channel, ch2: Channel, note: Note, v1: U7, v2: U7)
    requires ch1 != 1 && ch2 != 1
    ensures var s' := ApplyAll(kinds, win, s, [NoteOn(ch1, note, v1), NoteOn(ch2, note, v2)]);
      && s'.ripples == s.ripples[note := Spawn(kinds.ripple, SpawnPoint(note, v2, win), v2)]
      && s'.rotating == s.rotating
  {
    var msgs := [NoteOn(ch1, note, v1), NoteOn(ch2, note, v2)];
    assert msgs[..1][..0] == [];
    assert ApplyAll(kinds, win, s, msgs[..1]) == Apply(kinds, win, s, msgs[0]);
  }

  /**
   A note-off the sketch survives releases exactly the entity it names: only
   that entity's `held` changes, the other registry and the modifier stay.
   */
  lemma NoteOffReleases(kinds: Kinds, win: Rect, s: State, ch: Channel, note: Note, velocity: U7)
    requires CanApply(s, NoteOff(ch, note, velocity))
    ensures var s' := Apply(kinds, win, s, NoteOff(ch, note, velocity));
      && Routed(s', ch).Keys == Routed(s, ch).Keys
      && Routed(s', ch)[note] == Routed(s, ch)[note].(held := false)
      && !Routed(s', ch)[note].held
      && (forall k :: k in Routed(s, ch) && k != note ==> Routed(s', ch)[k] == Routed(s, ch)[k])
      && (if IsRotatingChannel(ch) then s'.ripples == s.ripples else s'.rotating == s.rotating)
      && s'.modifier == s.modifier
  {
  }

  /** A note-off for a note without an entity changes nothing. */
  lemma StrayNoteOffIgnored(kinds: Kinds, win: Rect, s: State, ch: Channel, note: Note, velocity: U7)
    requires !CanApply(s, NoteOff(ch, note, velocity))
    ensures Apply(kinds, win, s, NoteOff(ch, note, velocity)) == s
  {
  }

  /**
   The sketch as written panics on a note-off whose note has no entity in the
   registry its channel selects, whatever the state and whatever came before.
   */
  lemma StrayNoteOffPanics(kinds: Kinds, win: Rect, s: State, msgs: seq<Msg>, ch: Channel, note: Note, velocity: U7)
    requires note !in Routed(ApplyAll(kinds, win, s, msgs), ch)
    ensures !NoPanic(kinds, win, s, msgs + [NoteOff(ch, note, velocity)])
  {
    var all := msgs + [NoteOff(ch, note, velocity)];
    assert all[..|all| - 1] == msgs;
  }

  /** In particular a fresh sketch cannot take a note-off as its first message. */
  lemma FirstNoteOffPanics(kinds: Kinds, win: Rect, ch: Channel, note: Note, velocity: U7)
    ensures !NoPanic(kinds, win, Initial, [NoteOff(ch, note, velocity)])
  {
    assert [] + [NoteOff(ch, note, velocity)] == [NoteOff(ch, note, velocity)];
    StrayNoteOffPanics(kinds, win, Initial, [], ch, note, velocity);
  }

  /** The modulation wheel sets the scale to 1 + 4 * value / 127 and touches nothing else. */
  lemma ModulationWheelSetsScale(kinds: Kinds, win: Rect, s: State, ch: Channel, value: U7)
    ensures var s' := Apply(kinds, win, s, ControlChange(ch, ModulationWheel, value));
      && s'.modifier.scale == 1.0 + 4.0 * value as real / 127.0
      && (value == 0 ==> s'.modifier.scale == 1.0)
      && (value == 127 ==> s'.modifier.scale == 5.0)
      && s'.modifier.accelerator == s.modifier.accelerator
      && s'.modifier.centerShift == s.modifier.centerShift
      && s'.rotating == s.rotating && s'.ripples == s.ripples
  {
  }

  /** Sound controller 5 sets the accelerator to 1 + 4 * value / 127 and touches nothing else. */
  lemma SoundController5SetsAccelerator(kinds: Kinds, win: Rect, s: State, ch: Channel, value: U7)
    ensures var s' := Apply(kinds, win, s, ControlChange(ch, SoundController5, value));
      && s'.modifier.accelerator == 1.0 + 4.0 * value as real / 127.0
      && (value == 0 ==> s'.modifier.accelerator == 1.0)
      && (value == 127 ==> s'.modifier.accelerator == 5.0)
      && s'.modifier.scale == s.modifier.scale
      && s'.modifier.centerShift == s.modifier.centerShift
      && s'.rotating == s.rotating && s'.ripples == s.ripples
  {
  }

  /** A higher controller value never gives a smaller scale or accelerator. */
  lemma ControlChangeMonotone(kinds: Kinds, win: Rect, s: State, ch: Channel, control: U7, a: U7, b: U7)
    requires a <= b
    ensures var lo := Apply(kinds, win, s, ControlChange(ch, control, a)).modifier;
      var hi := Apply(kinds, win, s, ControlChange(ch, control, b)).modifier;
      lo.scale <= hi.scale && lo.accelerator <= hi.accelerator
  {
    RemapMonotone(a, b, MaxRadiusScale);
    RemapMonotone(a, b, MaxAccelerator);
  }

  /** Any other controller, an undecodable frame and any other message kind leave the state as it is. */
  lemma IgnoredMessages(kinds: Kinds, win: Rect, s: State, ch: Channel, control: U7, value: U7)
    requires control != ModulationWheel && control != SoundController5
    ensures Apply(kinds, win, s, ControlChange(ch, control, value)) == s
    ensures Apply(kinds, win, s, Invalid) == s
    ensures Apply(kinds, win, s, Other) == s
  {
  }

  // ---------------------------------------------------------------------------
  // Queues of messages

  /** Draining `a` and then `b` is draining `a + b`: messages take effect in queue order. */
  lemma {:induction false} ApplyAllAppend(kinds: Kinds, win: Rect, s: State, a: seq<Msg>, b: seq<Msg>)
    ensures ApplyAll(kinds, win, s, a + b) == ApplyAll(kinds, win, ApplyAll(kinds, win, s, a), b)
    decreases |b|
  {
    if b == [] {
      assert a + b == a;
    } else {
      var b' := b[..|b| - 1];
      assert (a + b)[..|a + b| - 1] == a + b';
      assert (a + b)[|a + b| - 1] == b[|b| - 1];
      ApplyAllAppend(kinds, win, s, a, b');
    }
  }

  /** A queue of undecodable frames and unhandled message kinds changes nothing. */
  lemma {:induction false} ApplyAllIgnored(kinds: Kinds, win: Rect, s: State, msgs: seq<Msg>)
    requires forall i :: 0 <= i < |msgs| ==> msgs[i].Invalid? || msgs[i].Other?
    ensures ApplyAll(kinds, win, s, msgs) == s
    decreases |msgs|
  {
    if msgs != [] {
      ApplyAllIgnored(kinds, win, s, msgs[..|msgs| - 1]);
    }
  }

  /** The scale and accelerator never leave [1, 5], whatever the queue. */
  lemma {:induction false} ApplyAllKeepsModifierInRange(kinds: Kinds, win: Rect, s: State, msgs: seq<Msg>)
    requires ModifierInRange(s.modifier)
    ensures ModifierInRange(ApplyAll(kinds, win, s, msgs).modifier)
    decreases |msgs|
  {
    if msgs != [] {
      ApplyAllKeepsModifierInRange(kinds, win, s, msgs[..|msgs| - 1]);
    }
  }

  /** In a queue the sketch survives, each message meets the state its predecessors left. */
  lemma {:induction false} NoPanicAt(kinds: Kinds, win: Rect, s: State, msgs: seq<Msg>, i: nat)
    requires NoPanic(kinds, win, s, msgs) && i < |msgs|
    ensures CanApply(ApplyAll(kinds, win, s, msgs[..i]), msgs[i])
    decreases |msgs|
  {
    var init := msgs[..|msgs| - 1];
    if i == |msgs| - 1 {
      assert init == msgs[..i];
    } else {
      assert init[..i] == msgs[..i] && init[i] == msgs[i];
      NoPanicAt(kinds, win, s, init, i);
    }
  }

  // ---------------------------------------------------------------------------
  // The frame

  /**
   Eviction runs after the whole queue and before the update pass: an entity
   is in the next frame exactly when the drained state held it with a positive
   lifetime, and it then has taken exactly one update step under the modifier
   carrying the new drift.
   */
  lemma NextFrameEvictsThenUpdates(kinds: Kinds, win: Rect, shift: Point, s: State, msgs: seq<Msg>)
    ensures var d := ApplyAll(kinds, win, s, msgs);
      var f := NextFrame(kinds, win, shift, s, msgs);
      && f.modifier == d.modifier.(centerShift := shift)
      && (forall k :: k in f.rotating <==> k in d.rotating && d.rotating[k].lifetime > 0)
      && (forall k :: k in f.rotating ==> f.rotating[k] == kinds.rotating.update(d.rotating[k], f.modifier))
      && (forall k :: k in f.ripples <==> k in d.ripples && d.ripples[k].lifetime > 0)
      && (forall k :: k in f.ripples ==> f.ripples[k] == kinds.ripple.update(d.ripples[k], f.modifier))
  {
  }

  /** A note held at the end of the queue with a positive initial lifetime is on screen in the next frame. */
  lemma {:induction false} LastNoteOnSurvivesFrame(kinds: Kinds, win: Rect, shift: Point, s: State, msgs: seq<Msg>, note: Note, velocity: U7)
    requires kinds.rotating.initialLifetime(velocity) > 0
    ensures note in NextFrame(kinds, win, shift, s, msgs + [NoteOn(1, note, velocity)]).rotating
  {
    var all := msgs + [NoteOn(1, note, velocity)];
    assert all[..|all| - 1] == msgs;
    NextFrameEvictsThenUpdates(kinds, win, shift, s, all);
  }

  /**
   A played and released note, with the modulation wheel halfway: after the
   three messages the particle is there and released, and the scale is
   1 + 4 * 64 / 127, a little over the middle of [1, 5].
   */
  lemma PlayReleaseScenario(kinds: Kinds, win: Rect)
    ensures var msgs := [NoteOn(1, 60, 100), ControlChange(1, ModulationWheel, 64), NoteOff(1, 60, 0)];
      var s := ApplyAll(kinds, win, Initial, msgs);
      && NoPanic(kinds, win, Initial, msgs)
      && s.rotating.Keys == {60} && s.ripples == map[]
      && !s.rotating[60].held && s.rotating[60].velocity == 100
      && s.rotating[60].lifetime == kinds.rotating.initialLifetime(100)
      && s.modifier.scale == 1.0 + 256.0 / 127.0
      && 3.0 < s.modifier.scale < 3.1
  {
    var msgs := [NoteOn(1, 60, 100), ControlChange(1, ModulationWheel, 64), NoteOff(1, 60, 0)];
    var s1 := Apply(kinds, win, Initial, msgs[0]);
    var s2 := Apply(kinds, win, s1, msgs[1]);
    assert msgs[..1][..0] == [] && msgs[..2][..1] == msgs[..1] && msgs[..3][..2] == msgs[..2];
    assert ApplyAll(kinds, win, Initial, msgs[..1]) == s1;
    assert ApplyAll(kinds, win, Initial, msgs[..2]) == s2;
    assert msgs[..3] == msgs;
    assert NoPanic(kinds, win, Initial, []);
    assert msgs[..1][0] == msgs[0] && msgs[..2][1] == msgs[1];
    assert NoPanic(kinds, win, Initial, msgs[..1]);
    assert NoPanic(kinds, win, Initial, msgs[..2]);
    assert s1.rotating.Keys == {60};
  }
}
