/**
 * The credential flattening of `superglue_run_instruction`: every system's
 * credentials merged into one object keyed `<system id>_<credential name>`,
 * folded over the systems in list order so that a later system overwrites an
 * earlier one on a key clash.
 */
module Credentials {
  import opened Json
  import opened Maps

  /** `sys.credentials || {}` */
  function CredentialsOf(system: Json): Json {
    var c := Get(system, "credentials");
    if Truthy(c) then c else Obj(map[])
  }

  /** `${sys.id}_${name}` */
  function CredentialKey(system: Json, name: string): string {
    TemplateString(Get(system, "id")) + "_" + name
  }

  /** One system's credentials under their flattened keys: the inner `reduce`. */
  function Contribution(system: Json): (m: map<string, Json>)
    ensures forall name :: name in Entries(CredentialsOf(system)) ==>
              CredentialKey(system, name) in m && m[CredentialKey(system, name)] == Entries(CredentialsOf(system))[name]
    ensures forall k :: k in m ==> exists name :: name in Entries(CredentialsOf(system)) && k == CredentialKey(system, name)
  {
    var creds := Entries(CredentialsOf(system));
    var prefix := TemplateString(Get(system, "id")) + "_";
    assert forall n1, n2 :: prefix + n1 == prefix + n2 ==> n1 == n2 by {
      forall n1, n2 | prefix + n1 == prefix + n2 ensures n1 == n2 {
        assert n1 == (prefix + n1)[|prefix|..];
        assert n2 == (prefix + n2)[|prefix|..];
      }
    }
    map name | name in creds :: prefix + name := creds[name]
  }

  function Contributions(systems: seq<Json>): (ms: seq<map<string, Json>>)
    ensures |ms| == |systems|
    ensures forall i :: 0 <= i < |systems| ==> ms[i] == Contribution(systems[i])
  {
    seq(|systems|, i requires 0 <= i < |systems| => Contribution(systems[i]))
  }

  /**
   * The outer `reduce` over `Object.values(args.systems)`. Reading
   * `sys.credentials` of a nullish system would throw; the validator that
   * runs first rules such systems out.
   */
  function FlattenCredentials(systems: seq<Json>): (flat: map<string, Json>)
    requires forall i :: 0 <= i < |systems| ==> !Nullish(systems[i])
    ensures forall k :: k in flat <==> exists i :: 0 <= i < |systems| && k in Contribution(systems[i])
  {
    UnionAll(Contributions(systems))
  }

  /** The flattened keys are exactly `<id>_<name>` for every credential of every system. */
  lemma FlattenedKeys(systems: seq<Json>, k: string)
    requires forall i :: 0 <= i < |systems| ==> !Nullish(systems[i])
    ensures k in FlattenCredentials(systems)
            <==> exists i, name :: 0 <= i < |systems| && name in Entries(CredentialsOf(systems[i]))
                                   && k == CredentialKey(systems[i], name)
  {
    var ms := Contributions(systems);
    assert FlattenCredentials(systems) == UnionAll(ms);
    if k in UnionAll(ms) {
      var i :| 0 <= i < |ms| && k in ms[i];
      var name :| name in Entries(CredentialsOf(systems[i])) && k == CredentialKey(systems[i], name);
    }
    if exists i, name :: 0 <= i < |systems| && name in Entries(CredentialsOf(systems[i]))
                         && k == CredentialKey(systems[i], name) {
      var i, name :| 0 <= i < |systems| && name in Entries(CredentialsOf(systems[i]))
                     && k == CredentialKey(systems[i], name);
      assert k in ms[i];
    }
  }

  /**
   * A flattened key carries the value of the last system in list order that
   * contributes it. Keys of different systems can coincide (system `a_b` with
   * credential `c` and system `a` with credential `b_c` both give `a_b_c`);
   * the later system then wins.
   */
  lemma FlattenedLastWins(systems: seq<Json>, i: nat, name: string)
    requires forall j :: 0 <= j < |systems| ==> !Nullish(systems[j])
    requires i < |systems| && name in Entries(CredentialsOf(systems[i]))
    requires forall j :: i < j < |systems| ==> CredentialKey(systems[i], name) !in Contribution(systems[j])
    ensures var k := CredentialKey(systems[i], name);
            k in FlattenCredentials(systems)
            && FlattenCredentials(systems)[k] == Entries(CredentialsOf(systems[i]))[name]
  {
    UnionAllLastWins(Contributions(systems), i, CredentialKey(systems[i], name));
  }
}
