/**
 The sketch's arithmetic: turning a note and its velocity into a spawn point
 inside the window, and a controller value into a modifier parameter. Rust's
 f32 arithmetic is idealised as exact `real` arithmetic.
 */
module Mapping {
  import opened Midi
  import opened Particles

  const MaxRadiusScale: real := 5.0
  const MaxAccelerator: real := 5.0
  const MidiMaxValue: int := 127
  /** The melodic band, inclusive at both ends. */
  const RotatingMinNote: int := 48
  const RotatingMaxNote: int := 72

  /** The window rectangle, centred on the origin. */
  datatype Rect = Rect(w: real, h: real) {
    function Left(): real { -w / 2.0 }
    function Right(): real { w / 2.0 }
    function Bottom(): real { -h / 2.0 }
    function Top(): real { h / 2.0 }
  }

  /** nannou's `map_range`: linear interpolation of `v` from [inMin, inMax] onto [outMin, outMax]. */
  function MapRange(v: real, inMin: real, inMax: real, outMin: real, outMax: real): (r: real)
    requires inMin != inMax
    ensures v == inMin ==> r == outMin
    ensures v == inMax ==> r == outMax
    ensures inMin < inMax && inMin <= v <= inMax && outMin <= outMax ==> outMin <= r <= outMax
  {
    var t := (v - inMin) / (inMax - inMin);
    InterpolationFacts(t, v - inMin, inMax - inMin, outMax - outMin);
    t * (outMax - outMin) + outMin
  }

  lemma MulNonneg(a: real, b: real)
    requires 0.0 <= a && 0.0 <= b
    ensures 0.0 <= a * b
  {
  }

  lemma MulPos(a: real, b: real)
    requires 0.0 < a && 0.0 < b
    ensures 0.0 < a * b
  {
  }

  /** A product is zero only when a factor is. */
  lemma MulZero(a: real, b: real)
    requires a * b == 0.0 && b != 0.0
    ensures a == 0.0
  {
    if a > 0.0 && b > 0.0 { MulPos(a, b); }
    if a > 0.0 && b < 0.0 { MulPos(a, -b); }
    if a < 0.0 && b > 0.0 { MulPos(-a, b); }
    if a < 0.0 && b < 0.0 { MulPos(-a, -b); }
  }

  /**
   With t = a / b: t is 0 at a = 0 and 1 at a = b, and for 0 <= a <= b the
   product t * d lies between 0 and a non-negative d.
   */
  lemma InterpolationFacts(t: real, a: real, b: real, d: real)
    requires b != 0.0 && t == a / b
    ensures a == 0.0 ==> t * d == 0.0
    ensures a == b ==> t * d == d
    ensures 0.0 <= a <= b && 0.0 <= d ==> 0.0 <= t * d <= d
  {
    assert t * b == a;
    if a == b {
      assert (t - 1.0) * b == 0.0;
      MulZero(t - 1.0, b);
    }
    if 0.0 <= a <= b && 0.0 <= d {
      assert 0.0 < b;
      if t < 0.0 {
        MulNonneg(-t, b);
        assert false;
      }
      if t > 1.0 {
        MulNonneg(t - 1.0, b);
        assert false;
      }
      MulNonneg(t, d);
      MulNonneg(1.0 - t, d);
      assert (1.0 - t) * d == d - t * d;
    }
  }

  predicate InBand(note: Note) {
    RotatingMinNote <= note <= RotatingMaxNote
  }

  /**
   Where a note-on spawns its entity. Inside the melodic band the note spreads
   over the window's width and the velocity over its height; outside it the
   raw note number spreads over the width and the velocity maps downwards
   from the top edge to the centre line.
   */
  function SpawnPoint(note: Note, velocity: U7, win: Rect): (p: Point)
    ensures InBand(note) && 0.0 <= win.w && 0.0 <= win.h ==>
      win.Left() <= p.x <= win.Right() && win.Bottom() <= p.y <= win.Top()
    ensures !InBand(note) && 0.0 <= win.w && 0.0 <= win.h ==>
      win.Left() <= p.x <= win.Right() && 0.0 <= p.y <= win.Top()
    ensures InBand(note) && note == RotatingMinNote ==> p.x == win.Left()
    ensures InBand(note) && note == RotatingMaxNote ==> p.x == win.Right()
    ensures InBand(note) && velocity == 0 ==> p.y == win.Bottom()
    ensures velocity == 127 ==> p.y == (if InBand(note) then win.Top() else 0.0)
    ensures !InBand(note) && velocity == 0 ==> p.y == win.Top()
  {
    if InBand(note) then BandPoint(note, velocity, win) else FallbackPoint(note, velocity, win)
  }

  /** The melodic band's arm: `map_range` over the window's width and height. */
  function BandPoint(note: Note, velocity: U7, win: Rect): (p: Point)
    requires InBand(note)
    ensures 0.0 <= win.w && 0.0 <= win.h ==>
      win.Left() <= p.x <= win.Right() && win.Bottom() <= p.y <= win.Top()
    ensures note == RotatingMinNote ==> p.x == win.Left()
    ensures note == RotatingMaxNote ==> p.x == win.Right()
    ensures velocity == 0 ==> p.y == win.Bottom()
    ensures velocity == 127 ==> p.y == win.Top()
  {
    Point(MapRange(note as real, RotatingMinNote as real, RotatingMaxNote as real, win.Left(), win.Right()),
          MapRange(velocity as real, 0.0, MidiMaxValue as real, -win.h / 2.0, win.h / 2.0))
  }

  /** The other notes' arm: the raw note over the width, the velocity from the top edge down to the centre line. */
  function FallbackPoint(note: Note, velocity: U7, win: Rect): (p: Point)
    ensures 0.0 <= win.w && 0.0 <= win.h ==>
      win.Left() <= p.x <= win.Right() && 0.0 <= p.y <= win.Top()
    ensures velocity == 0 ==> p.y == win.Top()
    ensures velocity == 127 ==> p.y == 0.0
  {
    SevenBitScale(win.w, note as real);
    SevenBitScale(win.h / 2.0, velocity as real);
    Point(win.w * note as real / (MidiMaxValue as real) - win.w / 2.0,
          -win.h / 2.0 * velocity as real / (MidiMaxValue as real) + win.h / 2.0)
  }

  /** A non-negative d scaled by k / 127, for k in 0..127, stays within [0, d], with both ends reached. */
  lemma SevenBitScale(d: real, k: real)
    requires 0.0 <= k <= MidiMaxValue as real
    ensures k == 0.0 ==> d * k / (MidiMaxValue as real) == 0.0
    ensures k == MidiMaxValue as real ==> d * k / (MidiMaxValue as real) == d
    ensures 0.0 <= d ==> 0.0 <= d * k / (MidiMaxValue as real) <= d
    ensures -d * k / (MidiMaxValue as real) == -(d * k / (MidiMaxValue as real))
  {
    if 0.0 <= d {
      MulNonneg(d, k);
      MulNonneg(d, MidiMaxValue as real - k);
      assert d * (MidiMaxValue as real - k) == d * (MidiMaxValue as real) - d * k;
    }
  }

  /**
   A controller value remapped onto [1, ceiling]:
   `1 + (ceiling - 1) * value / 127`.
   */
  function Remap(value: U7, ceiling: real): (r: real)
    ensures value == 0 ==> r == 1.0
    ensures value == 127 ==> r == ceiling
    ensures 1.0 <= ceiling ==> 1.0 <= r <= ceiling
  {
    SevenBitScale(ceiling - 1.0, value as real);
    1.0 + (ceiling - 1.0) * value as real / (MidiMaxValue as real)
  }

  /** Remap is non-decreasing in the controller value. */
  lemma RemapMonotone(a: U7, b: U7, ceiling: real)
    requires a <= b && 1.0 <= ceiling
    ensures Remap(a, ceiling) <= Remap(b, ceiling)
  {
    var d := ceiling - 1.0;
    MulNonneg(d, (b - a) as real);
    assert d * (b as real) - d * (a as real) == d * (b - a) as real;
  }

  /** The modifier bounds the sketch maintains: neither parameter drops below 1 nor exceeds its ceiling. */
  predicate ModifierInRange(m: Modifier) {
    1.0 <= m.scale <= MaxRadiusScale && 1.0 <= m.accelerator <= MaxAccelerator
  }

  /**
   A control-change on the modifier: the modulation wheel sets the scale, sound
   controller 5 sets the accelerator, every other controller is ignored.
   */
  function ApplyControl(m: Modifier, control: U7, value: U7): (r: Modifier)
    ensures r.centerShift == m.centerShift
    ensures control == ModulationWheel ==> r.scale == Remap(value, MaxRadiusScale) && r.accelerator == m.accelerator
    ensures control == SoundController5 ==> r.accelerator == Remap(value, MaxAccelerator) && r.scale == m.scale
    ensures control != ModulationWheel && control != SoundController5 ==> r == m
    ensures ModifierInRange(m) ==> ModifierInRange(r)
  {
    if control == ModulationWheel then
      m.(scale := Remap(value, MaxRadiusScale))
    else if control == SoundController5 then
      m.(accelerator := Remap(value, MaxAccelerator))
    else
      m
  }
}
