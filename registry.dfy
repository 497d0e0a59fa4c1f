/**
 * The `typemap: BTreeMap<String, String>` that each generator fills while it
 * walks the manifest's types and then consults with
 * `typemap.get(t).cloned().unwrap_or(t)`: a missing key resolves to itself.
 */
module Registry {

  type TypeMap = map<string, string>

  /** One lookup with the identity fallback. */
  function Resolve(m: TypeMap, k: string): (r: string)
    ensures k in m ==> r == m[k]
    ensures k !in m ==> r == k
  {
    if k in m then m[k] else k
  }

  /** A key just registered resolves to what was registered; other keys are untouched. */
  lemma ResolveAfterInsert(m: TypeMap, k: string, v: string, j: string)
    ensures Resolve(m[k := v], k) == v
    ensures j != k ==> Resolve(m[k := v], j) == Resolve(m, j)
  {
  }

  /** Resolving is the identity on an empty registry. */
  lemma ResolveEmpty(k: string)
    ensures Resolve(map[], k) == k
  {
  }

  /** Registering a key on top of a merge is registering it in the map merged last. */
  lemma MergeThenInsert(m: TypeMap, r: TypeMap, k: string, v: string)
    ensures (m + r)[k := v] == m + r[k := v]
  {
  }
}
