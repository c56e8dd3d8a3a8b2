/**
 A registry is one of the sketch's two maps from note to live entity
 (`rotating_particles`, `ripple_circles`). The key is the note alone, so a
 second note-on for the same note replaces the entity it finds.
 */
module Registry {
  import opened Midi
  import opened Particles

  type Registry = map<Note, Entity>

  /** `HashMap::insert`: the note now maps to `e`, every other note keeps its entity. */
  function Insert(r: Registry, note: Note, e: Entity): (r': Registry)
    ensures r'.Keys == r.Keys + {note}
    ensures r'[note] == e
    ensures forall k :: k in r && k != note ==> r'[k] == r[k]
  {
    r[note := e]
  }

  /** Replacing a live note keeps the set of keys, and so the number of entries. */
  lemma InsertPresentKeepsSize(r: Registry, note: Note, e: Entity)
    requires note in r
    ensures Insert(r, note, e).Keys == r.Keys
    ensures |Insert(r, note, e)| == |r|
  {
  }

  /** A fresh note adds exactly one entry. */
  lemma InsertAbsentGrows(r: Registry, note: Note, e: Entity)
    requires note !in r
    ensures |Insert(r, note, e)| == |r| + 1
  {
  }

  /**
   Releasing a note: the entity at `note`, if there is one, is no longer held;
   nothing else changes. A note with no entity is ignored.
   */
  function Release(r: Registry, note: Note): (r': Registry)
    ensures r'.Keys == r.Keys
    ensures note in r ==> r'[note] == r[note].(held := false)
    ensures forall k :: k in r && k != note ==> r'[k] == r[k]
    ensures note !in r ==> r' == r
  {
    if note in r then r[note := r[note].(held := false)] else r
  }

  /** `retain(|_, e| e.lifetime > 0)`: exactly the entries with a positive lifetime stay, unchanged. */
  function Retained(r: Registry): (r': Registry)
    ensures forall k :: k in r' <==> k in r && r[k].lifetime > 0
    ensures forall k :: k in r' ==> r'[k] == r[k]
  {
    map k | k in r && r[k].lifetime > 0 :: r[k]
  }

  /** Every entry of a registry has a positive lifetime. */
  predicate AllLive(r: Registry) {
    forall k :: k in r ==> r[k].lifetime > 0
  }

  /** Retaining is the identity exactly on registries whose entries are all live. */
  lemma RetainedFixpoint(r: Registry)
    ensures AllLive(Retained(r))
    ensures Retained(r) == r <==> AllLive(r)
    ensures Retained(Retained(r)) == Retained(r)
  {
    assert Retained(r).Keys <= r.Keys;
    if AllLive(r) {
      assert Retained(r).Keys == r.Keys;
    }
    assert Retained(Retained(r)).Keys == Retained(r).Keys;
  }

  /** The per-frame update pass: every entity takes one step, no key is added or removed. */
  function Advanced(r: Registry, b: Behaviour, m: Modifier): (r': Registry)
    ensures r'.Keys == r.Keys
    ensures forall k :: k in r ==> r'[k] == b.update(r[k], m)
  {
    map k | k in r :: b.update(r[k], m)
  }

  /** `HashMap::retain`, visiting the entries one at a time and dropping each expired one. */
  method Retain(r: Registry) returns (r': Registry)
    ensures r' == Retained(r)
  {
    r' := r;
    var todo := r.Keys;
    while todo != {}
      invariant todo <= r.Keys && r'.Keys <= r.Keys
      invariant forall k :: k in todo ==> k in r'
      invariant forall k :: k in r && k !in todo ==> (k in r' <==> r[k].lifetime > 0)
      invariant forall k :: k in r' ==> r'[k] == r[k]
      decreases todo
    {
      var k :| k in todo;
      if r'[k].lifetime <= 0 {
        r' := r' - {k};
      }
      todo := todo - {k};
    }
    assert r'.Keys == Retained(r).Keys;
  }

  /** `iter_mut().for_each(|e| e.update(&modifier))`, one entry at a time. */
  method UpdateEach(r: Registry, b: Behaviour, m: Modifier) returns (r': Registry)
    ensures r' == Advanced(r, b, m)
  {
    r' := r;
    var todo := r.Keys;
    while todo != {}
      invariant todo <= r.Keys && r'.Keys == r.Keys
      invariant forall k :: k in todo ==> r'[k] == r[k]
      invariant forall k :: k in r && k !in todo ==> r'[k] == b.update(r[k], m)
      decreases todo
    {
      var k :| k in todo;
      r' := r'[k := b.update(r'[k], m)];
      todo := todo - {k};
    }
  }
}
