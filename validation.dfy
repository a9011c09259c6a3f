/**
 * The input checks the static tools run before they call the backend:
 * `validateToolExecution` for `superglue_execute_tool`, `validateToolBuilding`
 * for `superglue_build_new_tool` and `superglue_run_instruction`, and the
 * "exactly one of" refinements on the transform and tool request schemas.
 * Errors are kept structured; `ExecutionMessage` and `BuildMessage` render
 * each as the text the server reports.
 */
module Validation {
  import opened Json

  // ---------------------------------------------------------------- execute

  datatype ExecutionError = IdRequired | CredentialsNotObject

  function ExecutionMessage(e: ExecutionError): string {
    match e
    case IdRequired => "Tool ID is required. Use superglue_list_available_tools to find valid IDs."
    case CredentialsNotObject => "Credentials must be a JSON object with key-value pairs."
  }

  /** Credentials that are present but of a primitive type (`typeof` is not `'object'`). */
  predicate CredentialsOfWrongType(credentials: Json) {
    Truthy(credentials) && !IsObjectType(credentials)
  }

  /**
   * The errors of `superglue_execute_tool`'s arguments, in the order they are
   * pushed: a missing id first, then credentials of the wrong type.
   */
  function ValidateToolExecution(args: map<string, Json>): (errors: seq<ExecutionError>)
    ensures IdRequired in errors <==> !Truthy(Get(Obj(args), "id"))
    ensures CredentialsNotObject in errors <==> CredentialsOfWrongType(Get(Obj(args), "credentials"))
    ensures |errors| <= 2
    ensures |errors| == 2 ==> errors == [IdRequired, CredentialsNotObject]
  {
    var args := Obj(args);
    (if !Truthy(Get(args, "id")) then [IdRequired] else [])
    + (if CredentialsOfWrongType(Get(args, "credentials")) then [CredentialsNotObject] else [])
  }

  // ---------------------------------------------------------------- build

  datatype BuildError =
    | InstructionTooShort
    | SystemsMissing
    | UrlHostMissing(index: nat)
    | CredentialsMissing(index: nat)

  function BuildMessage(e: BuildError): string {
    match e
    case InstructionTooShort =>
      "Instruction must be detailed (minimum 10 characters). Describe what the tool should do, "
      + "what systems it connects to, and expected inputs/outputs."
    case SystemsMissing =>
      "Systems array is required with at least one system configuration including credentials."
    case UrlHostMissing(i) => SystemMessage(i, UrlHostRequired)
    case CredentialsMissing(i) => SystemMessage(i, CredentialsRequired)
  }

  /** `System ${index}:` followed by the detail. */
  function SystemMessage(index: nat, detail: string): string {
    "System " + NatToString(index) + ":" + detail
  }

  const UrlHostRequired := " urlHost is required (e.g., 'api.example.com')"
  const CredentialsRequired := " credentials object is required with API keys/tokens. You can use a placeholder."

  /** The two execution messages differ, so the text tells which check failed. */
  lemma ExecutionMessagesDiffer()
    ensures ExecutionMessage(IdRequired) != ExecutionMessage(CredentialsNotObject)
  {
    assert |ExecutionMessage(IdRequired)| == 74;
    assert |ExecutionMessage(CredentialsNotObject)| == 55;
  }

  /** A per-system message opens with `System <index>:`. */
  lemma MessageOpensWithSystem(e: BuildError)
    requires e.UrlHostMissing? || e.CredentialsMissing?
    ensures var prefix := "System " + NatToString(e.index) + ":";
            |BuildMessage(e)| >= |prefix| && BuildMessage(e)[..|prefix|] == prefix
  {
    var prefix := "System " + NatToString(e.index) + ":";
    var rest := if e.UrlHostMissing? then UrlHostRequired else CredentialsRequired;
    assert BuildMessage(e) == SystemMessage(e.index, rest) == prefix + rest;
    assert (prefix + rest)[..|prefix|] == prefix;
  }

  /** The index can be read back from a per-system message. */
  lemma SystemMessageInjective(i: nat, j: nat, detail: string)
    requires SystemMessage(i, detail) == SystemMessage(j, detail)
    ensures i == j
  {
    var ni, nj := NatToString(i), NatToString(j);
    var m := SystemMessage(i, detail);
    assert |ni| == |nj|;
    assert ni == m[7..7 + |ni|];
    assert nj == SystemMessage(j, detail)[7..7 + |nj|];
    NatToStringInjective(i, j);
  }

  /** Two per-system messages of the same kind that read the same are about the same system. */
  lemma MessageNamesSystem(e1: BuildError, e2: BuildError)
    requires (e1.UrlHostMissing? && e2.UrlHostMissing?) || (e1.CredentialsMissing? && e2.CredentialsMissing?)
    requires BuildMessage(e1) == BuildMessage(e2)
    ensures e1 == e2
  {
    SystemMessageInjective(e1.index, e2.index, if e1.UrlHostMissing? then UrlHostRequired else CredentialsRequired);
  }

  /**
   * The outcome of `validateToolBuilding`: the list of errors, or the
   * TypeError it throws when `systems` is neither nullish nor an array
   * (`forEach` is not a function) or holds a nullish system (its `urlHost`
   * cannot be read).
   */
  datatype BuildValidation = Listed(errors: seq<BuildError>) | Threw

  /** `!instruction || instruction.length < 10` */
  predicate InstructionInvalid(instruction: Json) {
    !Truthy(instruction) || LessThanTen(Get(instruction, "length"))
  }

  /** `!systems || !Array.isArray(systems) || systems.length === 0` */
  predicate SystemsInvalid(systems: Json) {
    !systems.Arr? || |systems.items| == 0
  }

  /** `!credentials || Object.keys(credentials).length === 0` */
  predicate CredentialsAbsent(credentials: Json) {
    !Truthy(credentials) || Entries(credentials) == map[]
  }

  /** The errors about the arguments as a whole, pushed before the per-system ones. */
  function HeadErrors(args: map<string, Json>): seq<BuildError> {
    (if InstructionInvalid(Get(Obj(args), "instruction")) then [InstructionTooShort] else [])
    + (if SystemsInvalid(Get(Obj(args), "systems")) then [SystemsMissing] else [])
  }

  /** The errors about the system at `index`: urlHost first, then credentials. */
  function SystemErrors(index: nat, system: Json): seq<BuildError> {
    (if !Truthy(Get(system, "urlHost")) then [UrlHostMissing(index)] else [])
    + (if CredentialsAbsent(Get(system, "credentials")) then [CredentialsMissing(index)] else [])
  }

  /** The per-system errors of a list of systems, in index order. */
  function PerSystemErrors(systems: seq<Json>): seq<BuildError> {
    if systems == [] then []
    else PerSystemErrors(systems[..|systems| - 1]) + SystemErrors(|systems| - 1, systems[|systems| - 1])
  }

  predicate HasNullish(items: seq<Json>) {
    exists i :: 0 <= i < |items| && Nullish(items[i])
  }

  /** What `validateToolBuilding` returns or throws for the arguments. */
  function BuildingValidation(args: map<string, Json>): (v: BuildValidation)
    ensures v == Listed([]) ==>
              var systems := Get(Obj(args), "systems");
              && systems.Arr? && |systems.items| > 0
              && forall i :: 0 <= i < |systems.items| ==> !Nullish(systems.items[i])
  {
    var systems := Get(Obj(args), "systems");
    if Nullish(systems) then Listed(HeadErrors(args))
    else if !systems.Arr? || HasNullish(systems.items) then Threw
    else Listed(HeadErrors(args) + PerSystemErrors(systems.items))
  }

  /** `validateToolBuilding`: pushes the errors one by one, walking the systems in index order. */
  method ValidateToolBuilding(args: map<string, Json>) returns (v: BuildValidation)
    ensures v == BuildingValidation(args)
  {
    var errors: seq<BuildError> := [];
    if InstructionInvalid(Get(Obj(args), "instruction")) {
      errors := errors + [InstructionTooShort];
    }
    var systems := Get(Obj(args), "systems");
    if !Truthy(systems) || !systems.Arr? || |systems.items| == 0 {
      errors := errors + [SystemsMissing];
    }
    assert errors == HeadErrors(args);
    if Nullish(systems) {
      return Listed(errors);
    }
    if !systems.Arr? {
      return Threw;
    }
    v := CheckSystems(errors, systems.items);
  }

  /**
   * The `forEach` over the systems: appends each system's errors to those
   * already pushed, and throws at the first nullish system.
   */
  /** One step of the `forEach`: the urlHost check, then the credentials check, of a non-nullish system. */
  method CheckSystem(pushed: seq<BuildError>, index: nat, system: Json) returns (errors: seq<BuildError>)
    ensures errors == pushed + SystemErrors(index, system)
  {
    errors := pushed;
    if !Truthy(Get(system, "urlHost")) {
      errors := errors + [UrlHostMissing(index)];
    }
    if !Truthy(Get(system, "credentials")) || Entries(Get(system, "credentials")) == map[] {
      errors := errors + [CredentialsMissing(index)];
    }
  }

  method CheckSystems(pushed: seq<BuildError>, items: seq<Json>) returns (v: BuildValidation)
    ensures HasNullish(items) ==> v == Threw
    ensures !HasNullish(items) ==> v == Listed(pushed + PerSystemErrors(items))
  {
    var errors := pushed;
    var i := 0;
    while i < |items|
      invariant 0 <= i <= |items|
      invariant NoNullishBefore(items, i)
      invariant errors == pushed + PerSystemErrors(items[..i])
    {
      var system := items[i];
      if Nullish(system) {
        return Threw;
      }
      errors := CheckSystem(errors, i, system);
      PerSystemErrorsStep(items, i);
      NoNullishStep(items, i);
      i := i + 1;
    }
    assert items[..i] == items;
    return Listed(errors);
  }

  ghost predicate NoNullishBefore(items: seq<Json>, i: nat)
    requires i <= |items|
  {
    forall j :: 0 <= j < i ==> !Nullish(items[j])
  }

  lemma NoNullishStep(items: seq<Json>, i: nat)
    requires i < |items| && NoNullishBefore(items, i) && !Nullish(items[i])
    ensures NoNullishBefore(items, i + 1)
  {
  }

  lemma PerSystemErrorsStep(items: seq<Json>, i: nat)
    requires i < |items|
    ensures PerSystemErrors(items[..i + 1]) == PerSystemErrors(items[..i]) + SystemErrors(i, items[i])
  {
    assert items[..i + 1][..i] == items[..i];
  }

  // ------------------------------------------------------- build: properties

  /** The position of an error in the order the validator pushes them. */
  function Rank(e: BuildError): nat {
    match e
    case InstructionTooShort => 0
    case SystemsMissing => 1
    case UrlHostMissing(i) => 2 + 2 * i
    case CredentialsMissing(i) => 3 + 2 * i
  }

  predicate StrictlyRanked(errors: seq<BuildError>) {
    forall a, b :: 0 <= a < b < |errors| ==> Rank(errors[a]) < Rank(errors[b])
  }

  lemma {:induction false} PerSystemErrorsShape(systems: seq<Json>)
    ensures |PerSystemErrors(systems)| <= 2 * |systems|
    ensures StrictlyRanked(PerSystemErrors(systems))
    ensures forall e :: e in PerSystemErrors(systems) ==> 2 <= Rank(e) < 2 + 2 * |systems|
  {
    if systems != [] {
      var n := |systems| - 1;
      PerSystemErrorsShape(systems[..n]);
      var front, last := PerSystemErrors(systems[..n]), SystemErrors(n, systems[n]);
      assert forall e :: e in last ==> 2 + 2 * n <= Rank(e) < 2 + 2 * |systems|;
      assert forall a :: 0 <= a < |front| ==> front[a] in front;
      assert forall b :: 0 <= b < |last| ==> last[b] in last;
    }
  }

  lemma {:induction false} UrlHostMissingIn(systems: seq<Json>, i: nat)
    ensures UrlHostMissing(i) in PerSystemErrors(systems)
            <==> i < |systems| && !Truthy(Get(systems[i], "urlHost"))
  {
    if systems != [] {
      var n := |systems| - 1;
      UrlHostMissingIn(systems[..n], i);
      assert i < n ==> systems[..n][i] == systems[i];
      assert UrlHostMissing(i) in SystemErrors(n, systems[n]) <==> i == n && !Truthy(Get(systems[n], "urlHost"));
    }
  }

  lemma {:induction false} CredentialsMissingIn(systems: seq<Json>, i: nat)
    ensures CredentialsMissing(i) in PerSystemErrors(systems)
            <==> i < |systems| && CredentialsAbsent(Get(systems[i], "credentials"))
  {
    if systems != [] {
      var n := |systems| - 1;
      CredentialsMissingIn(systems[..n], i);
      assert i < n ==> systems[..n][i] == systems[i];
      assert CredentialsMissing(i) in SystemErrors(n, systems[n]) <==> i == n && CredentialsAbsent(Get(systems[n], "credentials"));
    }
  }

  /**
   * The list `validateToolBuilding` returns has at most 2 + 2·|systems|
   * entries, in push order: the instruction error, the systems error, then
   * for each system in index order its urlHost and credentials errors.
   */
  lemma BuildingErrorsOrdered(args: map<string, Json>)
    requires BuildingValidation(args).Listed?
    ensures var systems := Get(Obj(args), "systems");
            var v := BuildingValidation(args);
            && |v.errors| <= 2 + 2 * (if systems.Arr? then |systems.items| else 0)
            && StrictlyRanked(v.errors)
  {
    var systems := Get(Obj(args), "systems");
    var head := HeadErrors(args);
    assert forall e :: e in head ==> Rank(e) < 2;
    assert forall a :: 0 <= a < |head| ==> head[a] in head;
    if systems.Arr? {
      PerSystemErrorsShape(systems.items);
      var tail := PerSystemErrors(systems.items);
      assert forall b :: 0 <= b < |tail| ==> tail[b] in tail;
    }
  }

  /**
   * Each error is reported exactly when its condition holds: the instruction
   * is missing or shorter than 10, systems is not a non-empty array, system
   * `i` has a falsy urlHost, system `i` has no credentials keys.
   */
  lemma BuildingErrorsIff(args: map<string, Json>, i: nat)
    requires BuildingValidation(args).Listed?
    ensures var v := BuildingValidation(args);
            var systems := Get(Obj(args), "systems");
            && (InstructionTooShort in v.errors <==> InstructionInvalid(Get(Obj(args), "instruction")))
            && (SystemsMissing in v.errors <==> SystemsInvalid(systems))
            && (UrlHostMissing(i) in v.errors
                <==> systems.Arr? && i < |systems.items| && !Truthy(Get(systems.items[i], "urlHost")))
            && (CredentialsMissing(i) in v.errors
                <==> systems.Arr? && i < |systems.items| && CredentialsAbsent(Get(systems.items[i], "credentials")))
  {
    var systems := Get(Obj(args), "systems");
    if systems.Arr? {
      UrlHostMissingIn(systems.items, i);
      CredentialsMissingIn(systems.items, i);
      PerSystemErrorsShape(systems.items);
    }
  }

  /** The validator throws exactly for a non-nullish, non-array `systems` or a nullish system in it. */
  lemma BuildingThrowsIff(args: map<string, Json>)
    ensures var systems := Get(Obj(args), "systems");
            BuildingValidation(args).Threw?
            <==> !Nullish(systems) && (!systems.Arr? || HasNullish(systems.items))
  {
  }

  /** One system with an empty urlHost and empty credentials draws both of its errors. */
  lemma EmptySystemDrawsBothErrors()
    ensures var args := map["instruction" := Str("Fetch every open invoice from the billing API"),
                            "systems" := Arr([Obj(map["urlHost" := Str(""), "credentials" := Obj(map[])])])];
            BuildingValidation(args) == Listed([UrlHostMissing(0), CredentialsMissing(0)])
  {
    var system := Obj(map["urlHost" := Str(""), "credentials" := Obj(map[])]);
    assert [system][..0] == [];
    assert PerSystemErrors([system]) == SystemErrors(0, system);
  }

  // ---------------------------------------------------------------- refine

  /** `(a && !b) || (!a && b)`: exactly one of the two selectors is given. */
  predicate ExactlyOneOf(a: Json, b: Json) {
    (Truthy(a) && !Truthy(b)) || (!Truthy(a) && Truthy(b))
  }

  /** The refinement on a transform request: exactly one of `endpoint` and `id`. */
  predicate TransformRequestValid(request: map<string, Json>)
    ensures TransformRequestValid(request)
            <==> Truthy(Get(Obj(request), "endpoint")) != Truthy(Get(Obj(request), "id"))
  {
    ExactlyOneOf(Get(Obj(request), "endpoint"), Get(Obj(request), "id"))
  }

  /** The refinement on a tool request: exactly one of `tool` and `id`. */
  predicate ToolRequestValid(request: map<string, Json>)
    ensures ToolRequestValid(request)
            <==> Truthy(Get(Obj(request), "tool")) != Truthy(Get(Obj(request), "id"))
  {
    ExactlyOneOf(Get(Obj(request), "tool"), Get(Obj(request), "id"))
  }
}
