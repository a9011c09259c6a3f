/**
 * Merging a list of maps left to right, later maps overriding earlier ones:
 * the object spread `{ ...acc, ...next }` in a `reduce`.
 */
module Maps {

  /** The union of the maps, a key taking its value from the last map that has it. */
  function UnionAll<V>(ms: seq<map<string, V>>): (r: map<string, V>)
    ensures forall k :: k in r <==> exists i :: 0 <= i < |ms| && k in ms[i]
  {
    if ms == [] then map[] else UnionAll(ms[..|ms| - 1]) + ms[|ms| - 1]
  }

  /** A key's value in the union is its value in the last map that contributes it. */
  lemma {:induction false} UnionAllLastWins<V>(ms: seq<map<string, V>>, i: nat, k: string)
    requires i < |ms| && k in ms[i]
    requires forall j :: i < j < |ms| ==> k !in ms[j]
    ensures k in UnionAll(ms) && UnionAll(ms)[k] == ms[i][k]
  {
    if i < |ms| - 1 {
      var prefix := ms[..|ms| - 1];
      assert forall j :: i < j < |prefix| ==> prefix[j] == ms[j];
      UnionAllLastWins(prefix, i, k);
    }
  }
}
