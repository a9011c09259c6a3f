/**
 * The tool registry of one MCP server: the four static tools, one dynamic
 * `execute_<id>` tool per saved workflow, and the hook that registers a
 * freshly built workflow as a tool and announces that the tool list changed.
 * Registering a name that is already taken replaces its entry.
 */
module Tools {
  import opened Json
  import opened Wrappers

  /** A saved workflow, reduced to what a tool is made from; an absent instruction is `""`. */
  datatype Workflow = Workflow(id: string, instruction: string, inputSchema: Json)

  /** One field of a tool's input shape. */
  datatype Field =
    | AnyOptional(description: string)          // `z.any().optional().describe(…)`
    | RequestOptions(note: Option<string>)        // the optional request-options schema
    | FromSchema                                 // a field translated from the workflow's input schema

  /**
   * A registered tool. The four static tools are named; a dynamic tool keeps
   * the workflow id its handler runs, its description and its input shape.
   */
  datatype ToolEntry =
    | Static(name: string)
    | Dynamic(workflowId: string, description: string, shape: map<string, Field>)

  const ExecuteToolName := "superglue_execute_tool"
  const BuildToolName := "superglue_build_new_tool"
  const IntegrationCodeToolName := "superglue_get_integration_code"
  const RunInstructionToolName := "superglue_run_instruction"

  /** The static tools in the order they are declared and registered. */
  const StaticNames: seq<string> :=
    [ExecuteToolName, BuildToolName, IntegrationCodeToolName, RunInstructionToolName]

  /** The name of the dynamic tool of workflow `id`. */
  function ToolName(id: string): (name: string)
    ensures |name| == 8 + |id| && name[..8] == "execute_" && name[8..] == id
  {
    "execute_" + id
  }

  /** No dynamic tool can take the place of a static one. */
  lemma DynamicNeverStatic(id: string)
    ensures ToolName(id) !in StaticNames
  {
    var name := ToolName(id);
    assert name[0] == 'e';
    forall s | s in StaticNames ensures s[0] == 's' { }
  }

  /** The description of the dynamic tool: the instruction, else `Execute tool: <id>`. */
  function Description(w: Workflow): (d: string)
    ensures w.instruction != "" ==> d == w.instruction
    ensures w.instruction == "" ==> d == "Execute tool: " + w.id && d != ""
  {
    if w.instruction != "" then w.instruction else "Execute tool: " + w.id
  }

  /** The shape used when a workflow has no input schema or it cannot be translated. */
  function FallbackShape(): (shape: map<string, Field>)
    ensures shape.Keys == {"payload", "credentials", "options"}
    ensures shape["payload"].AnyOptional? && shape["credentials"].AnyOptional?
    ensures shape["options"].RequestOptions?
  {
    map["payload" := AnyOptional("JSON payload data for the tool"),
        "credentials" := AnyOptional("Authentication credentials for the tool"),
        "options" := RequestOptions(Some("Optional request configuration"))]
  }

  /**
   * The input shape of a dynamic tool. `translate` stands for turning the
   * input schema into zod source and reading back the properties of its
   * `z.object(…)`: the property names on success, `None` when anything in
   * that step throws. A translated shape always gains `options`, overriding
   * a schema property of that name.
   */
  function InputShape(w: Workflow, translate: Json -> Option<set<string>>): (shape: map<string, Field>)
    ensures "options" in shape && shape["options"].RequestOptions?
    ensures !Truthy(w.inputSchema) || translate(w.inputSchema).None? ==> shape == FallbackShape()
    ensures Truthy(w.inputSchema) && translate(w.inputSchema).Some? ==>
              && (forall k :: k in shape <==> k in translate(w.inputSchema).value || k == "options")
              && shape["options"] == RequestOptions(None)
              && forall k :: k in shape && k != "options" ==> shape[k] == FromSchema
  {
    if !Truthy(w.inputSchema) then FallbackShape()
    else match translate(w.inputSchema)
      case None => FallbackShape()
      case Some(properties) => (map k | k in properties :: FromSchema)["options" := RequestOptions(None)]
  }

  /** The dynamic tool made from a workflow. */
  function DynamicTool(w: Workflow, translate: Json -> Option<set<string>>): ToolEntry {
    Dynamic(w.id, Description(w), InputShape(w, translate))
  }

  /**
   * The record of dynamic tools of a list of workflows, filled in list
   * order: a later workflow with the same id replaces the earlier tool.
   */
  function DynamicTools(ws: seq<Workflow>, translate: Json -> Option<set<string>>): map<string, ToolEntry> {
    if ws == [] then map[]
    else DynamicTools(ws[..|ws| - 1], translate)[ToolName(ws[|ws| - 1].id) := DynamicTool(ws[|ws| - 1], translate)]
  }

  /** The record holds at most one tool per listed workflow. */
  lemma {:induction false} DynamicToolsAtMostOnePerWorkflow(ws: seq<Workflow>, translate: Json -> Option<set<string>>)
    ensures |DynamicTools(ws, translate)| <= |ws|
  {
    if ws != [] {
      DynamicToolsAtMostOnePerWorkflow(ws[..|ws| - 1], translate);
    }
  }

  /** `createDynamicTools`: fills the record workflow by workflow. */
  method CreateDynamicTools(ws: seq<Workflow>, translate: Json -> Option<set<string>>)
    returns (tools: map<string, ToolEntry>)
    ensures tools == DynamicTools(ws, translate)
  {
    tools := map[];
    var i := 0;
    while i < |ws|
      invariant 0 <= i <= |ws|
      invariant tools == DynamicTools(ws[..i], translate)
    {
      assert ws[..i + 1][..i] == ws[..i];
      tools := tools[ToolName(ws[i].id) := DynamicTool(ws[i], translate)];
      i := i + 1;
    }
    assert ws[..i] == ws;
  }

  /** Every dynamic tool is named after a workflow. */
  lemma {:induction false} DynamicToolNamed(ws: seq<Workflow>, translate: Json -> Option<set<string>>, name: string)
    requires name in DynamicTools(ws, translate)
    ensures exists i :: 0 <= i < |ws| && name == ToolName(ws[i].id)
  {
    var n := |ws| - 1;
    if name != ToolName(ws[n].id) {
      var prefix := ws[..n];
      DynamicToolNamed(prefix, translate, name);
      var i :| 0 <= i < |prefix| && name == ToolName(prefix[i].id);
      assert prefix[i] == ws[i];
    }
  }

  /** Every workflow has its dynamic tool. */
  lemma {:induction false} WorkflowHasTool(ws: seq<Workflow>, translate: Json -> Option<set<string>>, i: nat)
    requires i < |ws|
    ensures ToolName(ws[i].id) in DynamicTools(ws, translate)
  {
    var n := |ws| - 1;
    if i < n {
      var prefix := ws[..n];
      assert prefix[i] == ws[i];
      WorkflowHasTool(prefix, translate, i);
    }
  }

  /** The dynamic tools are named exactly after the workflows. */
  lemma DynamicToolsNames(ws: seq<Workflow>, translate: Json -> Option<set<string>>, name: string)
    ensures name in DynamicTools(ws, translate) <==> exists i :: 0 <= i < |ws| && name == ToolName(ws[i].id)
  {
    if name in DynamicTools(ws, translate) {
      DynamicToolNamed(ws, translate, name);
    }
    if exists i :: 0 <= i < |ws| && name == ToolName(ws[i].id) {
      var i :| 0 <= i < |ws| && name == ToolName(ws[i].id);
      WorkflowHasTool(ws, translate, i);
    }
  }

  /** The tool of a workflow whose id no later workflow repeats is that workflow's tool. */
  lemma {:induction false} DynamicToolsEntry(ws: seq<Workflow>, translate: Json -> Option<set<string>>, i: nat)
    requires i < |ws|
    requires forall j :: i < j < |ws| ==> ws[j].id != ws[i].id
    ensures ToolName(ws[i].id) in DynamicTools(ws, translate)
    ensures DynamicTools(ws, translate)[ToolName(ws[i].id)] == DynamicTool(ws[i], translate)
  {
    if i < |ws| - 1 {
      var prefix := ws[..|ws| - 1];
      assert prefix[i] == ws[i];
      DynamicToolsEntry(prefix, translate, i);
      assert ToolName(ws[|ws| - 1].id) != ToolName(ws[i].id);
    }
  }

  /** A static entry under each of the names. */
  function StaticEntries(names: seq<string>): (tools: map<string, ToolEntry>)
    ensures forall s :: s in tools <==> s in names
    ensures forall s :: s in tools ==> tools[s] == Static(s)
  {
    map s | s in names :: Static(s)
  }

  /**
   * A static tool's outcome as the build hook reads it: `None` unless the
   * result is present and successful; a successful build carries the
   * workflow it saved.
   */
  type ToolOutcome = Option<Workflow>

  /**
   * The tools registered on one server and the number of tool-list-changed
   * notifications it has sent.
   */
  class ToolRegistry {
    var tools: map<string, ToolEntry>
    var listChanged: nat

    constructor ()
      ensures tools == map[] && listChanged == 0
    {
      tools := map[];
      listChanged := 0;
    }

    /** `mcpServer.tool(name, …)`: the entry under `name`, replacing any earlier one. */
    method Register(name: string, entry: ToolEntry)
      modifies this
      ensures tools == old(tools)[name := entry]
      ensures listChanged == old(listChanged)
    {
      tools := tools[name := entry];
    }

    /** Registers a static tool under each name, in list order. */
    method RegisterStatic(names: seq<string>)
      modifies this
      ensures tools == old(tools) + StaticEntries(names)
      ensures listChanged == old(listChanged)
    {
      var i := 0;
      while i < |names|
        invariant 0 <= i <= |names|
        invariant tools == old(tools) + StaticEntries(names[..i])
        invariant listChanged == old(listChanged)
      {
        assert names[..i + 1] == names[..i] + [names[i]];
        assert StaticEntries(names[..i + 1]) == StaticEntries(names[..i])[names[i] := Static(names[i])];
        Register(names[i], Static(names[i]));
        i := i + 1;
      }
      assert names[..i] == names;
    }

    /** Registers every entry of the record under its name, in no particular order. */
    method RegisterAll(entries: map<string, ToolEntry>)
      modifies this
      ensures tools == old(tools) + entries
      ensures listChanged == old(listChanged)
    {
      var todo := entries.Keys;
      while todo != {}
        invariant todo <= entries.Keys
        invariant tools == old(tools) + map k | k in entries && k !in todo :: entries[k]
        invariant listChanged == old(listChanged)
        decreases todo
      {
        var name :| name in todo;
        assert (map k | k in entries && k !in todo - {name} :: entries[k])
               == (map k | k in entries && k !in todo :: entries[k])[name := entries[name]];
        Register(name, entries[name]);
        todo := todo - {name};
      }
      assert (map k | k in entries && k !in todo :: entries[k]) == entries;
    }

    /**
     * Registers a dynamic tool for every listed workflow. `listing` is the
     * first page of saved workflows, `None` when listing them failed, in
     * which case the server goes on with the tools it has.
     */
    method RegisterListed(listing: Option<seq<Workflow>>, translate: Json -> Option<set<string>>)
      modifies this
      ensures listing.None? ==> tools == old(tools)
      ensures listing.Some? ==> tools == old(tools) + DynamicTools(listing.value, translate)
      ensures listChanged == old(listChanged)
    {
      if listing.Some? {
        var dynamicTools := CreateDynamicTools(listing.value, translate);
        RegisterAll(dynamicTools);
      }
    }

    /**
     * The wrapper around every static tool's handler, after the handler has
     * returned: only a successful `superglue_build_new_tool` call registers
     * the built workflow's tool and sends the two list-changed notifications,
     * one through the high-level server and one through the low-level one.
     */
    method AfterStaticCall(toolName: string, outcome: ToolOutcome, translate: Json -> Option<set<string>>)
      modifies this
      ensures toolName == BuildToolName && outcome.Some? ==>
                && tools == old(tools)[ToolName(outcome.value.id) := DynamicTool(outcome.value, translate)]
                && listChanged == old(listChanged) + 2
      ensures !(toolName == BuildToolName && outcome.Some?) ==>
                tools == old(tools) && listChanged == old(listChanged)
    {
      if outcome.Some? && toolName == BuildToolName {
        var w := outcome.value;
        var built := CreateDynamicTools([w], translate);
        assert [w][..0] == [];
        var name := ToolName(w.id);
        Register(name, built[name]);
        listChanged := listChanged + 2;
      }
    }
  }

  /**
   * Registering a built workflow adds at most one name, leaves the static
   * tools alone, and registering it again changes nothing more.
   */
  lemma BuiltToolReplaces(tools: map<string, ToolEntry>, w: Workflow, translate: Json -> Option<set<string>>)
    ensures var after := tools[ToolName(w.id) := DynamicTool(w, translate)];
            && after.Keys == tools.Keys + {ToolName(w.id)}
            && (forall s :: s in StaticNames && s in tools ==> s in after && after[s] == tools[s])
            && after[ToolName(w.id) := DynamicTool(w, translate)] == after
  {
    DynamicNeverStatic(w.id);
  }

  /** No listed workflow's tool displaces a static tool. */
  lemma StaticToolsSurvive(ws: seq<Workflow>, translate: Json -> Option<set<string>>)
    ensures forall s :: s in StaticNames ==> s !in DynamicTools(ws, translate)
  {
    forall s | s in StaticNames ensures s !in DynamicTools(ws, translate) {
      if s in DynamicTools(ws, translate) {
        DynamicToolNamed(ws, translate, s);
        var i :| 0 <= i < |ws| && s == ToolName(ws[i].id);
        DynamicNeverStatic(ws[i].id);
      }
    }
  }

  /** A server start: static tools, then the listed workflows' tools beside them. */
  method StartServer(listing: Option<seq<Workflow>>, translate: Json -> Option<set<string>>)
    returns (registry: ToolRegistry)
    ensures fresh(registry)
    ensures listing.None? ==> registry.tools == StaticEntries(StaticNames)
    ensures listing.Some? ==> registry.tools == StaticEntries(StaticNames) + DynamicTools(listing.value, translate)
    ensures forall s :: s in StaticNames ==> s in registry.tools && registry.tools[s] == Static(s)
    ensures registry.listChanged == 0
  {
    registry := new ToolRegistry();
    registry.RegisterStatic(StaticNames);
    registry.RegisterListed(listing, translate);
    if listing.Some? {
      StaticToolsSurvive(listing.value, translate);
    }
  }
}
