/**
 * What the tool handlers do with their arguments: the static tools
 * `superglue_execute_tool`, `superglue_build_new_tool` and
 * `superglue_run_instruction`, and the handler of a dynamic `execute_<id>`
 * tool. The backend is not modelled; a handler's effect is the list of
 * backend calls it makes, with the request objects it sends, and the
 * backend's answers are parameters.
 */
module Dispatch {
  import opened Json
  import opened Wrappers
  import opened Validation
  import opened Credentials

  /** A call to the superglue backend. */
  datatype ClientCall =
    | ExecuteWorkflow(request: map<string, Json>)
    | BuildWorkflow(request: map<string, Json>)
    | UpsertWorkflow(id: Json, config: Json)

  /** The backend's answer to `executeWorkflow`. */
  datatype ExecuteResponse = ExecuteResponse(success: bool, config: Json)

  /** How a handler ends. */
  datatype Invocation =
    | Rejected(message: string)         // throws `Validation failed:` before any backend call
    | Crashed(calls: seq<ClientCall>)   // a TypeError escapes after these calls
    | Returned(calls: seq<ClientCall>)  // a result object is returned after these calls

  /** The backend calls a handler made. */
  function CallsMade(inv: Invocation): seq<ClientCall> {
    if inv.Rejected? then [] else inv.calls
  }

  const ValidationPrefix := "Validation failed:\n"

  /** The message of the error a handler throws for a non-empty list of validation messages. */
  function ValidationFailure(messages: seq<string>): (m: string)
    requires messages != []
    ensures |m| >= |ValidationPrefix| && m[..|ValidationPrefix|] == ValidationPrefix
    ensures m == ValidationPrefix + Join(messages, "\n")
    ensures |messages| == 1 ==> m == ValidationPrefix + messages[0]
  {
    var joined := Join(messages, "\n");
    assert (ValidationPrefix + joined)[..|ValidationPrefix|] == ValidationPrefix;
    ValidationPrefix + joined
  }

  /** One more error adds a line to the thrown message, in the order the errors were pushed. */
  lemma ValidationFailureSnoc(messages: seq<string>, extra: string)
    requires messages != []
    ensures ValidationFailure(messages + [extra]) == ValidationFailure(messages) + "\n" + extra
  {
    JoinSnoc(messages, extra, "\n");
  }

  function ExecutionMessages(errors: seq<ExecutionError>): (ms: seq<string>)
    ensures |ms| == |errors|
  {
    seq(|errors|, i requires 0 <= i < |errors| => ExecutionMessage(errors[i]))
  }

  function BuildMessages(errors: seq<BuildError>): (ms: seq<string>)
    ensures |ms| == |errors|
  {
    seq(|errors|, i requires 0 <= i < |errors| => BuildMessage(errors[i]))
  }

  /** `v || {}` */
  function OrEmptyObject(v: Json): (r: Json)
    ensures Truthy(r)
    ensures Truthy(v) ==> r == v
  {
    if Truthy(v) then v else Obj(map[])
  }

  /** The upsert that follows a successful execution, unless reading `config.id` throws. */
  function Persist(response: Option<ExecuteResponse>): (calls: seq<ClientCall>)
    ensures |calls| <= 1
    ensures calls != [] <==> response.Some? && response.value.success && !Nullish(response.value.config)
    ensures calls != [] ==> calls[0] == UpsertWorkflow(Get(response.value.config, "id"), response.value.config)
  {
    if response.Some? && response.value.success && !Nullish(response.value.config) then
      [UpsertWorkflow(Get(response.value.config, "id"), response.value.config)]
    else []
  }

  // ------------------------------------------------------------ execute tool

  /**
   * `superglue_execute_tool`: validate, execute the workflow with the
   * arguments as they came, and save the configuration it reports when the
   * run succeeded. `response` is `None` when `executeWorkflow` threw; every
   * backend failure is caught and returned.
   */
  function ExecuteTool(args: map<string, Json>, response: Option<ExecuteResponse>): (inv: Invocation)
    ensures inv.Rejected? <==> ValidateToolExecution(args) != []
    ensures inv.Rejected? ==> inv.message == ValidationFailure(ExecutionMessages(ValidateToolExecution(args)))
    ensures !inv.Rejected? ==> inv.Returned? && 1 <= |inv.calls| <= 2 && inv.calls[0] == ExecuteWorkflow(args)
    ensures |CallsMade(inv)| == 2
            <==> ValidateToolExecution(args) == [] && response.Some? && response.value.success
                 && !Nullish(response.value.config)
    ensures |CallsMade(inv)| == 2 ==>
              CallsMade(inv)[1] == UpsertWorkflow(Get(response.value.config, "id"), response.value.config)
  {
    var errors := ValidateToolExecution(args);
    if errors != [] then Rejected(ValidationFailure(ExecutionMessages(errors)))
    else Returned([ExecuteWorkflow(args)] + Persist(response))
  }

  // ------------------------------------------------------------ build tool

  /** The request `superglue_build_new_tool` sends to `buildWorkflow`. */
  function BuildRequest(args: map<string, Json>): (request: map<string, Json>)
    ensures request.Keys == {"instruction", "payload", "systems", "responseSchema"}
    ensures request["instruction"] == Get(Obj(args), "instruction")
    ensures request["systems"] == Get(Obj(args), "systems")
    ensures Truthy(request["payload"]) && Truthy(request["responseSchema"])
    ensures Truthy(Get(Obj(args), "payload")) ==> request["payload"] == Get(Obj(args), "payload")
    ensures !Truthy(Get(Obj(args), "payload")) ==> request["payload"] == Obj(map[])
    ensures Truthy(Get(Obj(args), "responseSchema")) ==> request["responseSchema"] == Get(Obj(args), "responseSchema")
    ensures !Truthy(Get(Obj(args), "responseSchema")) ==> request["responseSchema"] == Obj(map[])
  {
    map["instruction" := Get(Obj(args), "instruction"),
        "payload" := OrEmptyObject(Get(Obj(args), "payload")),
        "systems" := Get(Obj(args), "systems"),
        "responseSchema" := OrEmptyObject(Get(Obj(args), "responseSchema"))]
  }

  /**
   * `superglue_build_new_tool`: validate, then ask the backend to build and
   * save the workflow. A validator TypeError escapes the handler; a backend
   * failure is caught and returned.
   */
  function BuildTool(args: map<string, Json>): (inv: Invocation)
    ensures inv.Crashed? <==> BuildingValidation(args).Threw?
    ensures inv.Rejected? <==> BuildingValidation(args).Listed? && BuildingValidation(args).errors != []
    ensures inv.Rejected? ==> inv.message == ValidationFailure(BuildMessages(BuildingValidation(args).errors))
    ensures inv.Crashed? ==> inv.calls == []
    ensures inv.Returned? ==> |inv.calls| == 1 && inv.calls[0].BuildWorkflow?
                              && inv.calls[0].request == BuildRequest(args)
  {
    match BuildingValidation(args)
    case Threw => Crashed([])
    case Listed(errors) =>
      if errors != [] then Rejected(ValidationFailure(BuildMessages(errors)))
      else Returned([BuildWorkflow(BuildRequest(args))])
  }

  // ------------------------------------------------------------ run instruction

  /** The request that executes a workflow built on the spot, with the systems' credentials flattened. */
  function RunRequest(workflow: Json, payload: Json, systems: seq<Json>): (request: map<string, Json>)
    requires forall i :: 0 <= i < |systems| ==> !Nullish(systems[i])
    ensures request.Keys == {"workflow", "payload", "credentials"}
    ensures request["workflow"] == workflow && request["payload"] == payload
    ensures request["credentials"] == Obj(FlattenCredentials(systems))
  {
    map["workflow" := workflow, "payload" := payload, "credentials" := Obj(FlattenCredentials(systems))]
  }

  /** Arguments whose `systems` is an array without nullish elements, as passing validation guarantees. */
  predicate SystemsReadable(args: map<string, Json>) {
    var systems := Get(Obj(args), "systems");
    systems.Arr? && forall i :: 0 <= i < |systems.items| ==> !Nullish(systems.items[i])
  }

  /**
   * What `superglue_run_instruction` does once validation passed: an unsaved
   * build and, when it answers, one execution of the built workflow with the
   * flattened credentials and the caller's payload as given. `built` is the
   * workflow `buildWorkflow` answered, `None` when it threw. Nothing is saved.
   */
  function RunCalls(args: map<string, Json>, built: Option<Json>): (calls: seq<ClientCall>)
    requires SystemsReadable(args)
    ensures |calls| == (if built.Some? then 2 else 1)
    ensures calls[0] == BuildWorkflow(BuildRequest(args)["save" := Bool(false)])
    ensures forall c :: c in calls ==> !c.UpsertWorkflow?
    ensures built.Some? ==>
              calls[1] == ExecuteWorkflow(RunRequest(built.value, Get(Obj(args), "payload"),
                                                     Get(Obj(args), "systems").items))
  {
    var build := BuildWorkflow(BuildRequest(args)["save" := Bool(false)]);
    if built.None? then [build]
    else [build, ExecuteWorkflow(RunRequest(built.value, Get(Obj(args), "payload"), Get(Obj(args), "systems").items))]
  }

  /**
   * `superglue_run_instruction`: validate, then build without saving and run
   * once. A validator TypeError escapes; listed errors reject; a backend
   * failure is caught and returned.
   */
  function RunInstruction(args: map<string, Json>, built: Option<Json>): (inv: Invocation)
    ensures inv.Crashed? <==> BuildingValidation(args).Threw?
    ensures inv.Crashed? ==> inv.calls == []
    ensures inv.Rejected? <==> BuildingValidation(args).Listed? && BuildingValidation(args).errors != []
    ensures inv.Rejected? ==> inv.message == ValidationFailure(BuildMessages(BuildingValidation(args).errors))
    ensures BuildingValidation(args) == Listed([]) ==> SystemsReadable(args) && inv == Returned(RunCalls(args, built))
  {
    match BuildingValidation(args)
    case Threw => Crashed([])
    case Listed(errors) =>
      if errors != [] then Rejected(ValidationFailure(BuildMessages(errors)))
      else Returned(RunCalls(args, built))
  }

  // ------------------------------------------------------------ dynamic tool

  /** The request a dynamic tool sends: its own workflow id and the caller's three fields. */
  function DynamicRequest(workflowId: string, args: map<string, Json>): (request: map<string, Json>)
    ensures request.Keys == {"id", "payload", "credentials", "options"}
    ensures request["id"] == Str(workflowId)
    ensures forall k :: k in request && k != "id" ==> request[k] == Get(Obj(args), k)
  {
    map["id" := Str(workflowId),
        "payload" := Get(Obj(args), "payload"),
        "credentials" := Get(Obj(args), "credentials"),
        "options" := Get(Obj(args), "options")]
  }

  /**
   * The handler of the dynamic tool of workflow `workflowId`: it runs that
   * workflow whatever `id` the caller passes, and saves the configuration a
   * successful run reports. Nothing is caught: a throwing `executeWorkflow`
   * (`response` is `None`), a successful answer without a configuration, or
   * a failing `upsertWorkflow` (`upsertFails`) escapes the handler.
   */
  function DynamicInvocation(workflowId: string, args: map<string, Json>, response: Option<ExecuteResponse>,
                             upsertFails: bool): (inv: Invocation)
    ensures !inv.Rejected?
    ensures |inv.calls| == (if response.Some? && response.value.success && !Nullish(response.value.config) then 2 else 1)
    ensures inv.calls[0] == ExecuteWorkflow(DynamicRequest(workflowId, args))
    ensures |inv.calls| == 2 ==> inv.calls[1] == UpsertWorkflow(Get(response.value.config, "id"), response.value.config)
    ensures inv.Crashed? <==> response.None? || (response.value.success && (Nullish(response.value.config) || upsertFails))
  {
    var execute := ExecuteWorkflow(DynamicRequest(workflowId, args));
    if response.None? || (response.value.success && Nullish(response.value.config)) then Crashed([execute])
    else if response.value.success && upsertFails then Crashed([execute] + Persist(response))
    else Returned([execute] + Persist(response))
  }

  // ------------------------------------------------------------ properties

  /** A static tool whose arguments fail validation makes no backend call. */
  lemma RejectedMakesNoCall(args: map<string, Json>, response: Option<ExecuteResponse>, built: Option<Json>)
    ensures ValidateToolExecution(args) != [] ==> CallsMade(ExecuteTool(args, response)) == []
    ensures BuildingValidation(args) != Listed([]) ==>
              CallsMade(BuildTool(args)) == [] && CallsMade(RunInstruction(args, built)) == []
  {
  }

  /** Building a tool and running an instruction send the same build request, except that the run asks not to save. */
  lemma RunBuildsUnsaved(args: map<string, Json>, built: Option<Json>)
    requires BuildingValidation(args) == Listed([])
    ensures BuildTool(args).Returned? && RunInstruction(args, built).Returned?
    ensures var saved := BuildTool(args).calls[0].request;
            var unsaved := RunInstruction(args, built).calls[0].request;
            unsaved == saved["save" := Bool(false)] && "save" !in saved
  {
    var saved := BuildRequest(args);
    assert "save" !in saved.Keys;
    assert BuildTool(args) == Returned([BuildWorkflow(saved)]);
    assert RunInstruction(args, built) == Returned(RunCalls(args, built));
    assert RunCalls(args, built)[0] == BuildWorkflow(saved["save" := Bool(false)]);
  }
}
