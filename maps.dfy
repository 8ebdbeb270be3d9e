/** String dictionaries as used for properties and HTTP headers. */
module Maps {

  type StringMap = map<string, string>

  /** The dictionary `base` after `base.merge(top) { _, new in new }`, or after assigning
      every entry of `top` into `base` one key at a time: keys from both, values from `top`
      on a shared key. */
  function Overlay(base: StringMap, top: StringMap): (r: StringMap)
    ensures r.Keys == base.Keys + top.Keys
    ensures forall k :: k in top ==> r[k] == top[k]
    ensures forall k :: k in base && k !in top ==> r[k] == base[k]
  {
    base + top
  }

  lemma OverlayEmpty(m: StringMap)
    ensures Overlay(m, map[]) == m && Overlay(map[], m) == m
  {
  }

  /** The entries of `m` whose keys are not in `pending`. */
  function Without(m: StringMap, pending: set<string>): (r: StringMap)
    ensures r.Keys == m.Keys - pending
    ensures forall k :: k in r ==> r[k] == m[k]
  {
    map k | k in m && k !in pending :: m[k]
  }

  /** One more step of a key-by-key merge: assigning `top[k]` extends the merged part by `k`. */
  lemma {:induction false} OverlayStep(base: StringMap, top: StringMap, pending: set<string>, k: string)
    requires k in pending && k in top
    ensures Overlay(base, Without(top, pending))[k := top[k]] == Overlay(base, Without(top, pending - {k}))
  {
    var lhs := Overlay(base, Without(top, pending))[k := top[k]];
    var rhs := Overlay(base, Without(top, pending - {k}));
    assert lhs.Keys == rhs.Keys;
    forall j | j in lhs
      ensures lhs[j] == rhs[j]
    {
    }
  }
}
