/**
 * The material catalog the server loads once at start-up from
 * `catalog.json`, and the `catalog?.materials?.find(x => x.id === id)`
 * lookup every request uses.
 */
module Catalog {
  import opened Wrappers

  /**
   * One entry of the catalog's `materials` list. `scale` is the text that
   * `${m.scale_m_per_repeat}` renders (metres per texture repeat).
   */
  datatype Material = Material(id: string, albedoUrl: string, scale: string)

  /**
   * The loaded material list; None when no catalog was found, it did not
   * parse, or it has no `materials` field (all read as `undefined` by `?.`).
   */
  type Catalog = Option<seq<Material>>

  /** `ms.find(x => x.id === id)`: the first material with that id, if any. */
  function Find(ms: seq<Material>, id: string): (r: Option<Material>)
    ensures r.None? <==> forall i :: 0 <= i < |ms| ==> ms[i].id != id
    ensures r.Some? ==> exists i :: 0 <= i < |ms| && ms[i] == r.value && FirstWithId(ms, id, i)
  {
    if ms == [] then None
    else if ms[0].id == id then
      assert FirstWithId(ms, id, 0);
      Some(ms[0])
    else
      var r := Find(ms[1..], id);
      FirstWithIdShift(ms, id);
      r
  }

  lemma FirstWithIdShift(ms: seq<Material>, id: string)
    requires ms != [] && ms[0].id != id
    ensures forall i: nat :: FirstWithId(ms[1..], id, i) ==> ms[i + 1] == ms[1..][i] && FirstWithId(ms, id, i + 1)
  {
  }

  /** Index `i` holds the first material whose id is `id`. */
  predicate FirstWithId(ms: seq<Material>, id: string, i: nat)
  {
    i < |ms| && ms[i].id == id && forall j :: 0 <= j < i ==> ms[j].id != id
  }

  /** The first match is unique, so Find returns exactly the material at the first matching index. */
  lemma FindFirst(ms: seq<Material>, id: string, i: nat)
    requires FirstWithId(ms, id, i)
    ensures Find(ms, id) == Some(ms[i])
  {
    assert ms[i].id == id;
    var r := Find(ms, id);
    assert r.Some?;
    var k: nat :| k < |ms| && ms[k] == r.value && FirstWithId(ms, id, k);
    assert ms[k].id == id;
    assert !(k < i) && !(i < k);
  }

  /**
   * `catalog?.materials?.find(x => x.id === id)` where `id` may be
   * undefined; catalog ids are strings, so an undefined id matches nothing.
   */
  function Lookup(catalog: Catalog, id: Option<string>): (r: Option<Material>)
    ensures catalog.None? || id.None? ==> r.None?
    ensures r.Some? ==> catalog.Some? && id.Some? && r.value in catalog.value && r.value.id == id.value
    ensures catalog.Some? && id.Some? && r.None? ==> forall i :: 0 <= i < |catalog.value| ==> catalog.value[i].id != id.value
  {
    if catalog.None? || id.None? then None else Find(catalog.value, id.value)
  }

  /** A lookup of an id present in the catalog yields the material at the id's first index. */
  lemma LookupFirst(catalog: Catalog, id: Option<string>)
    ensures forall i: nat :: catalog.Some? && id.Some? && FirstWithId(catalog.value, id.value, i) ==>
              Lookup(catalog, id) == Some(catalog.value[i])
  {
    if catalog.Some? && id.Some? {
      forall i: nat | FirstWithId(catalog.value, id.value, i)
        ensures Lookup(catalog, id) == Some(catalog.value[i])
      {
        FindFirst(catalog.value, id.value, i);
      }
    }
  }
}
