/**
 * The "# Tools" section of the system prompt, as `getToolDescriptionsForMode`
 * assembles it: resolve the mode, collect the tools its groups grant and the
 * gate allows, add the always-available tools, render each tool's description
 * and join the non-empty ones under a fixed heading.
 *
 * Everything the assembler imports and does not define (mode resolution, the
 * gate, the group catalogue, the per-tool renderers, the diff strategy) is an
 * input here, and nothing is assumed about it.
 */
module ToolPrompts {
  import opened Wrappers
  import opened OrderedSets
  import opened Sequences

  type ToolName = string
  type Mode = string

  /** Inputs that are passed through to renderers and never inspected here. */
  type FilesSearchSettings
  type McpHub
  type ToolOptions
  /** A mode's group entry (a bare group name, or a name with options); only `getGroupName` reads it. */
  type GroupEntry

  datatype ModeConfig = ModeConfig(slug: Mode, name: string, groups: seq<GroupEntry>)

  datatype ToolGroup = ToolGroup(tools: seq<ToolName>)

  /** What the diff strategy's `getToolDescription` receives. */
  datatype DiffDescriptionArgs = DiffDescriptionArgs(cwd: string, toolOptions: Option<ToolOptions>)

  /** An externally supplied diff strategy; only its description capability is used here. */
  datatype DiffStrategy = DiffStrategy(getToolDescription: DiffDescriptionArgs -> string)

  /** The arguments every description renderer receives. */
  datatype ToolArgs = ToolArgs(
    cwd: string,
    searchSettings: FilesSearchSettings,
    searchTool: string,
    supportsComputerUse: bool,
    diffStrategy: Option<DiffStrategy>,
    browserViewportSize: Option<string>,
    mcpHub: Option<McpHub>,
    toolOptions: Option<ToolOptions>)

  /**
   * The imported collaborators of the assembler: `getModeConfig` (which may
   * throw; its error is the `Failure` value), `getGroupName`, `TOOL_GROUPS`,
   * `ALWAYS_AVAILABLE_TOOLS` and `isToolAllowedForMode`.
   */
  datatype Collaborators = Collaborators(
    getModeConfig: (Mode, Option<seq<ModeConfig>>) -> Result<ModeConfig, string>,
    getGroupName: GroupEntry -> string,
    toolGroups: map<string, ToolGroup>,
    alwaysAvailable: seq<ToolName>,
    isToolAllowedForMode: (ToolName, Mode, seq<ModeConfig>, map<string, bool>) -> bool)

  /**
   * The imported per-tool description functions: `describe` for those that take
   * the tool arguments, `describeConstant` for the three that take none
   * (ask_followup_question, attempt_completion, switch_mode).
   */
  datatype Renderers = Renderers(
    describe: (ToolName, ToolArgs) -> Option<string>,
    describeConstant: ToolName -> Option<string>)

  /** The parameters of `getToolDescriptionsForMode`, in their declared order. */
  datatype Request = Request(
    mode: Mode,
    cwd: string,
    searchSettings: FilesSearchSettings,
    searchTool: string,
    supportsComputerUse: bool,
    diffStrategy: Option<DiffStrategy>,
    browserViewportSize: Option<string>,
    mcpHub: Option<McpHub>,
    customModes: Option<seq<ModeConfig>>,
    experiments: Option<map<string, bool>>)

  const Heading: string := "# Tools\n\n"
  const Separator: string := "\n\n"

  // ---------------------------------------------------------------------------
  // Collecting the tool set
  // ---------------------------------------------------------------------------

  /** The gate's verdict, asked with `customModes ?? []` and `experiments ?? {}`. */
  predicate Allowed(env: Collaborators, req: Request, t: ToolName)
    ensures Allowed(env, req, t) <==>
      env.isToolAllowedForMode(t, req.mode,
                               if req.customModes.Some? then req.customModes.value else [],
                               if req.experiments.Some? then req.experiments.value else map[])
  {
    env.isToolAllowedForMode(t, req.mode, req.customModes.GetOr([]), req.experiments.GetOr(map[]))
  }

  /** `t` is listed in the catalogue group that entry `e` names. */
  predicate InGroup(env: Collaborators, e: GroupEntry, t: ToolName)
  {
    env.getGroupName(e) in env.toolGroups && t in env.toolGroups[env.getGroupName(e)].tools
  }

  /** The tools of `ts` that the gate allows, in their order. */
  function GatedTools(env: Collaborators, req: Request, ts: seq<ToolName>): (r: seq<ToolName>)
    ensures |r| <= |ts|
    ensures forall k :: 0 <= k < |r| ==> Allowed(env, req, r[k])
    decreases |ts|
  {
    if ts == [] then []
    else
      var n := |ts| - 1;
      GatedTools(env, req, ts[..n]) + (if Allowed(env, req, ts[n]) then [ts[n]] else [])
  }

  /** A tool survives the gate exactly when it is listed and allowed. */
  lemma {:induction false} GatedToolsMembers(env: Collaborators, req: Request, ts: seq<ToolName>)
    ensures forall t :: t in GatedTools(env, req, ts) <==> t in ts && Allowed(env, req, t)
    decreases |ts|
  {
    if ts != [] {
      var n := |ts| - 1;
      assert ts == ts[..n] + [ts[n]];
      GatedToolsMembers(env, req, ts[..n]);
    }
  }

  /** The allowed tools of the group entry `e` names; nothing when the name is not in the catalogue. */
  function GroupTools(env: Collaborators, req: Request, e: GroupEntry): (r: seq<ToolName>)
    ensures env.getGroupName(e) !in env.toolGroups ==> r == []
  {
    var g := env.getGroupName(e);
    if g in env.toolGroups then GatedTools(env, req, env.toolGroups[g].tools) else []
  }

  /** A group entry contributes exactly the allowed tools of the catalogue group it names. */
  lemma GroupToolsMembers(env: Collaborators, req: Request, e: GroupEntry)
    ensures forall t :: t in GroupTools(env, req, e) <==> InGroup(env, e, t) && Allowed(env, req, t)
  {
    var g := env.getGroupName(e);
    if g in env.toolGroups {
      GatedToolsMembers(env, req, env.toolGroups[g].tools);
    }
  }

  /** The allowed tools of each group entry, entry by entry. */
  function PerEntryTools(env: Collaborators, req: Request, groups: seq<GroupEntry>): seq<seq<ToolName>>
  {
    seq(|groups|, k requires 0 <= k < |groups| => GroupTools(env, req, groups[k]))
  }

  /** Every tool the group entries grant and the gate allows, in entry order, repeats included. */
  function GrantedTools(env: Collaborators, req: Request, groups: seq<GroupEntry>): seq<ToolName>
  {
    Concat(PerEntryTools(env, req, groups))
  }

  /** The tools in the order the assembler adds them to its `Set`. */
  function Candidates(env: Collaborators, req: Request, groups: seq<GroupEntry>): seq<ToolName>
  {
    GrantedTools(env, req, groups) + env.alwaysAvailable
  }

  /** The contents of the assembler's `tools` set after both loops. */
  function ToolSet(env: Collaborators, req: Request, groups: seq<GroupEntry>): seq<ToolName>
  {
    Dedup(Candidates(env, req, groups))
  }

  /** A tool is granted exactly when the gate allows it and some entry names a group listing it. */
  lemma GrantedToolsMembers(env: Collaborators, req: Request, groups: seq<GroupEntry>, t: ToolName)
    ensures t in GrantedTools(env, req, groups) <==>
      Allowed(env, req, t) && exists k :: 0 <= k < |groups| && InGroup(env, groups[k], t)
  {
    var per := PerEntryTools(env, req, groups);
    ConcatMembers(per, t);
    if exists k :: 0 <= k < |per| && t in per[k] {
      var k :| 0 <= k < |per| && t in per[k];
      GroupToolsMembers(env, req, groups[k]);
    }
    if Allowed(env, req, t) && exists k :: 0 <= k < |groups| && InGroup(env, groups[k], t) {
      var k :| 0 <= k < |groups| && InGroup(env, groups[k], t);
      GroupToolsMembers(env, req, groups[k]);
      assert t in per[k];
    }
  }

  /** Granted tools distribute over concatenation of group entries. */
  lemma GrantedToolsAppend(env: Collaborators, req: Request, a: seq<GroupEntry>, b: seq<GroupEntry>)
    ensures GrantedTools(env, req, a + b) == GrantedTools(env, req, a) + GrantedTools(env, req, b)
  {
    assert PerEntryTools(env, req, a + b) == PerEntryTools(env, req, a) + PerEntryTools(env, req, b);
    ConcatAppend(PerEntryTools(env, req, a), PerEntryTools(env, req, b));
  }

  /**
   * A tool is in the set exactly when it is always available, or some group
   * entry of the mode names a catalogue group listing it and the gate allows it.
   * So a group tool that is not always available and that the gate refuses is
   * never in the set; and the set has no duplicates.
   */
  lemma ToolSetMembers(env: Collaborators, req: Request, groups: seq<GroupEntry>, t: ToolName)
    ensures Distinct(ToolSet(env, req, groups))
    ensures t in ToolSet(env, req, groups) <==>
      t in env.alwaysAvailable ||
      (Allowed(env, req, t) && exists k :: 0 <= k < |groups| && InGroup(env, groups[k], t))
  {
    GrantedToolsMembers(env, req, groups, t);
    DedupMembers(Candidates(env, req, groups));
  }

  /** Every always-available tool is in the set, whatever the groups and the gate say. */
  lemma AlwaysAvailableIncluded(env: Collaborators, req: Request, groups: seq<GroupEntry>)
    ensures forall t :: t in env.alwaysAvailable ==> t in ToolSet(env, req, groups)
  {
    DedupMembers(Candidates(env, req, groups));
  }

  /**
   * The group tools come first, as the set built from them alone; after them
   * come the always-available tools that no group had already added.
   */
  lemma GroupToolsFirst(env: Collaborators, req: Request, groups: seq<GroupEntry>)
    ensures Dedup(GrantedTools(env, req, groups)) <= ToolSet(env, req, groups)
    ensures forall k :: |Dedup(GrantedTools(env, req, groups))| <= k < |ToolSet(env, req, groups)| ==>
      ToolSet(env, req, groups)[k] in env.alwaysAvailable &&
      ToolSet(env, req, groups)[k] !in GrantedTools(env, req, groups)
  {
    DedupPrefix(GrantedTools(env, req, groups), env.alwaysAvailable);
  }

  /** Each tool appears once, at the position where it was first added. */
  lemma ToolSetFirstSeenOrder(env: Collaborators, req: Request, groups: seq<GroupEntry>, i: nat, j: nat)
    requires i < j < |ToolSet(env, req, groups)|
    ensures ToolSet(env, req, groups)[i] != ToolSet(env, req, groups)[j]
    ensures ToolSet(env, req, groups)[i] in Candidates(env, req, groups)
    ensures ToolSet(env, req, groups)[j] in Candidates(env, req, groups)
    ensures FirstIndex(Candidates(env, req, groups), ToolSet(env, req, groups)[i]) <
            FirstIndex(Candidates(env, req, groups), ToolSet(env, req, groups)[j])
  {
    DedupFirstSeenOrder(Candidates(env, req, groups), i, j);
  }

  /** A group entry whose name is not in the catalogue contributes nothing: removing it changes nothing. */
  lemma UnknownGroupIgnored(env: Collaborators, req: Request, groups: seq<GroupEntry>, k: nat)
    requires k < |groups| && env.getGroupName(groups[k]) !in env.toolGroups
    ensures ToolSet(env, req, groups) == ToolSet(env, req, groups[..k] + groups[k + 1..])
  {
    var a, b := groups[..k], groups[k..];
    assert groups == a + b;
    GrantedToolsAppend(env, req, a, b);
    UnknownGroupAtFront(env, req, b);
    GrantedToolsAppend(env, req, a, b[1..]);
    assert b[1..] == groups[k + 1..];
  }

  /** A leading group entry whose name is not in the catalogue grants nothing. */
  lemma UnknownGroupAtFront(env: Collaborators, req: Request, b: seq<GroupEntry>)
    requires b != [] && env.getGroupName(b[0]) !in env.toolGroups
    ensures GrantedTools(env, req, b) == GrantedTools(env, req, b[1..])
  {
    assert b == [b[0]] + b[1..];
    GrantedToolsAppend(env, req, [b[0]], b[1..]);
    assert PerEntryTools(env, req, [b[0]]) == [[]] == [] + [[]];
    assert Concat<ToolName>([] + [[]]) == Concat<ToolName>([]) + [];
  }

  /** One more tool of a group's list is one more gate decision. */
  lemma GatedToolsSnoc(env: Collaborators, req: Request, ts: seq<ToolName>, j: nat)
    requires j < |ts|
    ensures Allowed(env, req, ts[j]) ==> GatedTools(env, req, ts[..j + 1]) == GatedTools(env, req, ts[..j]) + [ts[j]]
    ensures !Allowed(env, req, ts[j]) ==> GatedTools(env, req, ts[..j + 1]) == GatedTools(env, req, ts[..j])
  {
    assert ts[..j + 1][..j] == ts[..j];
    var g := GatedTools(env, req, ts[..j]);
    if !Allowed(env, req, ts[j]) {
      assert GatedTools(env, req, ts[..j + 1]) == g + [];
    }
  }

  /** One more group entry is one more group's allowed tools. */
  lemma GrantedToolsSnoc(env: Collaborators, req: Request, groups: seq<GroupEntry>, i: nat)
    requires i < |groups|
    ensures GrantedTools(env, req, groups[..i + 1]) ==
      GrantedTools(env, req, groups[..i]) + GroupTools(env, req, groups[i])
  {
    assert PerEntryTools(env, req, groups[..i + 1]) ==
      PerEntryTools(env, req, groups[..i]) + [GroupTools(env, req, groups[i])];
    ConcatSnoc(PerEntryTools(env, req, groups[..i]), GroupTools(env, req, groups[i]));
  }

  /**
   * The inner `forEach` of step 2: add each tool of one catalogue group that
   * the gate allows. `added` is the ghost record of every `add` made before.
   */
  method AddAllowedTools(env: Collaborators, req: Request, tools: seq<ToolName>, ghost added: seq<ToolName>,
                         groupTools: seq<ToolName>) returns (r: seq<ToolName>)
    requires tools == Dedup(added)
    ensures r == Dedup(added + GatedTools(env, req, groupTools))
  {
    r := tools;
    ghost var sofar := added;
    var j := 0;
    while j < |groupTools|
      invariant 0 <= j <= |groupTools|
      invariant r == Dedup(sofar)
      invariant sofar == added + GatedTools(env, req, groupTools[..j])
    {
      var tool := groupTools[j];
      GatedToolsSnoc(env, req, groupTools, j);
      ghost var g := GatedTools(env, req, groupTools[..j]);
      if Allowed(env, req, tool) {
        assert added + (g + [tool]) == (added + g) + [tool];
        DedupSnoc(sofar, tool);
        r := Add(r, tool);
        sofar := sofar + [tool];
      }
      j := j + 1;
    }
    assert groupTools[..j] == groupTools;
  }

  /**
   * Steps 2 and 3 of the assembler: for each group entry of the mode, in
   * order, add the allowed tools of the group it names (an unknown name adds
   * nothing); then add every always-available tool, ungated.
   */
  method CollectTools(env: Collaborators, req: Request, groups: seq<GroupEntry>) returns (tools: seq<ToolName>)
    ensures tools == ToolSet(env, req, groups)
  {
    tools := [];
    var i := 0;
    while i < |groups|
      invariant 0 <= i <= |groups|
      invariant tools == Dedup(GrantedTools(env, req, groups[..i]))
    {
      ghost var before := GrantedTools(env, req, groups[..i]);
      var groupName := env.getGroupName(groups[i]);
      if groupName in env.toolGroups {
        tools := AddAllowedTools(env, req, tools, before, env.toolGroups[groupName].tools);
      } else {
        assert before + GroupTools(env, req, groups[i]) == before;
      }
      GrantedToolsSnoc(env, req, groups, i);
      i := i + 1;
    }
    assert groups[..i] == groups;
    tools := AddEach(tools, GrantedTools(env, req, groups), env.alwaysAvailable);
  }

  // ---------------------------------------------------------------------------
  // Rendering and joining
  // ---------------------------------------------------------------------------

  /** How an entry of `toolDescriptionMap` produces its text. */
  datatype DescriptionFn =
    | FromArgs   // calls the imported renderer with the tool arguments
    | Constant   // calls the imported renderer with no arguments
    | DiffTool   // apply_diff: asks the diff strategy, or "" without one

  /** `toolDescriptionMap`: the fourteen tools that have a description function. */
  const ToolDescriptionMap: map<ToolName, DescriptionFn> := map[
    "read_file" := FromArgs,
    "write_to_file" := FromArgs,
    "search_files" := FromArgs,
    "list_files" := FromArgs,
    "ask_followup_question" := Constant,
    "attempt_completion" := Constant,
    "switch_mode" := Constant,
    "insert_content" := FromArgs,
    "use_mcp_tool" := FromArgs,
    "access_mcp_resource" := FromArgs,
    "search_and_replace" := FromArgs,
    "apply_diff" := DiffTool,
    "search_web" := FromArgs,
    "fetch_urls_content" := FromArgs
  ]

  /**
   * Looking a tool up in `toolDescriptionMap` and calling what is found;
   * `None` both for a missing entry and for a renderer that returned `undefined`.
   */
  function DescribeTool(rs: Renderers, name: ToolName, args: ToolArgs): (r: Option<string>)
    ensures name !in ToolDescriptionMap ==> r == None
    ensures name in ToolDescriptionMap && ToolDescriptionMap[name] == Constant ==> r == rs.describeConstant(name)
    ensures name in ToolDescriptionMap && ToolDescriptionMap[name] == FromArgs ==> r == rs.describe(name, args)
    ensures name in ToolDescriptionMap && ToolDescriptionMap[name] == DiffTool ==>
      r == Some(if args.diffStrategy.Some?
                then args.diffStrategy.value.getToolDescription(DiffDescriptionArgs(args.cwd, args.toolOptions))
                else "")
  {
    if name !in ToolDescriptionMap then None
    else
      match ToolDescriptionMap[name]
      case FromArgs => rs.describe(name, args)
      case Constant => rs.describeConstant(name)
      case DiffTool =>
        Some(if args.diffStrategy.Some?
             then args.diffStrategy.value.getToolDescription(DiffDescriptionArgs(args.cwd, args.toolOptions))
             else "")
  }

  /** `Array.from(tools).map(...)`: each tool's lookup result, in tool order. */
  function RenderAll(rs: Renderers, tools: seq<ToolName>, args: ToolArgs): (r: seq<Option<string>>)
    ensures |r| == |tools|
    ensures forall k :: 0 <= k < |tools| ==> r[k] == DescribeTool(rs, tools[k], args)
  {
    seq(|tools|, k requires 0 <= k < |tools| => DescribeTool(rs, tools[k], args))
  }

  /** `filter(Boolean)` on rendered descriptions: the defined, non-empty strings, in order. */
  function KeepNonEmpty(rendered: seq<Option<string>>): (ds: seq<string>)
    ensures forall k :: 0 <= k < |ds| ==> ds[k] != ""
    ensures |ds| <= |rendered|
    decreases |rendered|
  {
    if rendered == [] then []
    else
      var n := |rendered| - 1;
      var last := rendered[n];
      KeepNonEmpty(rendered[..n]) + (if last.Some? && last.value != "" then [last.value] else [])
  }

  /** The descriptions of `tools` that survive `filter(Boolean)`, in tool order. */
  function Descriptions(rs: Renderers, tools: seq<ToolName>, args: ToolArgs): seq<string>
  {
    KeepNonEmpty(RenderAll(rs, tools, args))
  }

  /** `Array.prototype.join(sep)`. */
  function Join(parts: seq<string>, sep: string): (r: string)
    ensures parts == [] ==> r == ""
    ensures parts != [] ==> parts[0] <= r
    ensures |parts| > 1 ==> parts[0] + sep <= r
    decreases |parts|
  {
    if parts == [] then ""
    else if |parts| == 1 then parts[0]
    else parts[0] + sep + Join(parts[1..], sep)
  }

  /** Joining non-empty strings gives the empty string only for the empty list. */
  lemma JoinEmpty(parts: seq<string>, sep: string)
    requires forall k :: 0 <= k < |parts| ==> parts[k] != ""
    ensures Join(parts, sep) == "" <==> parts == []
  {
    if parts != [] {
      assert |Join(parts, sep)| >= |parts[0]| > 0;
    }
  }

  /** The final template string: the heading, then the kept descriptions joined by a blank line. */
  function ToolsSection(rs: Renderers, tools: seq<ToolName>, args: ToolArgs): (s: string)
    ensures Heading <= s
    ensures s == Heading <==> Descriptions(rs, tools, args) == []
  {
    JoinEmpty(Descriptions(rs, tools, args), Separator);
    Heading + Join(Descriptions(rs, tools, args), Separator)
  }

  /** Filtering distributes over concatenation: order is kept. */
  lemma {:induction false} KeepNonEmptyAppend(a: seq<Option<string>>, b: seq<Option<string>>)
    ensures KeepNonEmpty(a + b) == KeepNonEmpty(a) + KeepNonEmpty(b)
    decreases |b|
  {
    if b == [] {
      assert a + b == a;
    } else {
      var n := |b| - 1;
      var ab := a + b;
      assert ab[..|ab| - 1] == a + b[..n];
      assert ab[|ab| - 1] == b[n];
      KeepNonEmptyAppend(a, b[..n]);
    }
  }

  /** A string survives the filter exactly when it is non-empty and was rendered. */
  lemma {:induction false} KeepNonEmptyMembers(rendered: seq<Option<string>>, d: string)
    ensures d in KeepNonEmpty(rendered) <==> d != "" && Some(d) in rendered
    decreases |rendered|
  {
    if rendered != [] {
      var n := |rendered| - 1;
      assert rendered == rendered[..n] + [rendered[n]];
      KeepNonEmptyMembers(rendered[..n], d);
    }
  }

  /** Rendering distributes over concatenation of tool lists: order is kept. */
  lemma DescriptionsAppend(rs: Renderers, a: seq<ToolName>, b: seq<ToolName>, args: ToolArgs)
    ensures Descriptions(rs, a + b, args) == Descriptions(rs, a, args) + Descriptions(rs, b, args)
  {
    assert RenderAll(rs, a + b, args) == RenderAll(rs, a, args) + RenderAll(rs, b, args);
    KeepNonEmptyAppend(RenderAll(rs, a, args), RenderAll(rs, b, args));
  }

  /**
   * Every kept description comes from some tool in the list, and every tool
   * whose description is a non-empty string contributes it.
   */
  lemma DescriptionsMembers(rs: Renderers, tools: seq<ToolName>, args: ToolArgs, d: string)
    ensures d in Descriptions(rs, tools, args) <==>
      d != "" && exists t :: t in tools && DescribeTool(rs, t, args) == Some(d)
  {
    var rendered := RenderAll(rs, tools, args);
    KeepNonEmptyMembers(rendered, d);
    if Some(d) in rendered {
      var k :| 0 <= k < |rendered| && rendered[k] == Some(d);
      assert tools[k] in tools;
    }
    if exists t :: t in tools && DescribeTool(rs, t, args) == Some(d) {
      var t :| t in tools && DescribeTool(rs, t, args) == Some(d);
      var k :| 0 <= k < |tools| && tools[k] == t;
      assert rendered[k] == Some(d);
    }
  }

  /** A tool whose lookup gives nothing or the empty string changes nothing wherever it sits. */
  lemma SilentToolContributesNothing(rs: Renderers, a: seq<ToolName>, t: ToolName, b: seq<ToolName>, args: ToolArgs)
    requires DescribeTool(rs, t, args) == None || DescribeTool(rs, t, args) == Some("")
    ensures Descriptions(rs, a + [t] + b, args) == Descriptions(rs, a + b, args)
    ensures ToolsSection(rs, a + [t] + b, args) == ToolsSection(rs, a + b, args)
  {
    assert RenderAll(rs, [t], args) == [] + [DescribeTool(rs, t, args)];
    assert Descriptions(rs, [t], args) == [];
    DescriptionsAppend(rs, a + [t], b, args);
    DescriptionsAppend(rs, a, [t], args);
    DescriptionsAppend(rs, a, b, args);
  }

  /** A tool with no entry in `toolDescriptionMap` renders nothing. */
  lemma UnknownToolSilent(rs: Renderers, name: ToolName, args: ToolArgs)
    requires name !in ToolDescriptionMap
    ensures DescribeTool(rs, name, args) == None
  {
  }

  /** Joining two non-empty lists puts exactly one separator between them. */
  lemma {:induction false} JoinAppend(a: seq<string>, b: seq<string>, sep: string)
    requires a != [] && b != []
    ensures Join(a + b, sep) == Join(a, sep) + sep + Join(b, sep)
    decreases |a|
  {
    var ab := a + b;
    assert |ab| > 1 && ab[0] == a[0];
    assert Join(ab, sep) == a[0] + sep + Join(ab[1..], sep);
    if |a| == 1 {
      assert ab[1..] == b;
    } else {
      assert ab[1..] == a[1..] + b;
      JoinAppend(a[1..], b, sep);
      assert Join(a, sep) == a[0] + sep + Join(a[1..], sep);
    }
  }

  /**
   * The section for `a + b`, when both parts render something: the texts of
   * `a`, exactly one blank line, then the texts of `b`.
   */
  lemma SectionOfConcatenation(rs: Renderers, a: seq<ToolName>, b: seq<ToolName>, args: ToolArgs)
    requires Descriptions(rs, a, args) != [] && Descriptions(rs, b, args) != []
    ensures ToolsSection(rs, a + b, args) ==
      Heading + Join(Descriptions(rs, a, args), Separator) + Separator + Join(Descriptions(rs, b, args), Separator)
  {
    DescriptionsAppend(rs, a, b, args);
    JoinAppend(Descriptions(rs, a, args), Descriptions(rs, b, args), Separator);
  }

  /** A single tool with a non-empty description gives the heading followed by that text alone. */
  lemma SectionOfOneTool(rs: Renderers, t: ToolName, args: ToolArgs)
    requires DescribeTool(rs, t, args).Some? && DescribeTool(rs, t, args).value != ""
    ensures ToolsSection(rs, [t], args) == Heading + DescribeTool(rs, t, args).value
  {
    assert RenderAll(rs, [t], args) == [] + [DescribeTool(rs, t, args)];
  }

  // ---------------------------------------------------------------------------
  // The assembler
  // ---------------------------------------------------------------------------

  /** The arguments every renderer receives: the request's, with `toolOptions` forced to `undefined`. */
  function RendererArgs(req: Request): (args: ToolArgs)
    ensures args.toolOptions == None
    ensures args.cwd == req.cwd && args.diffStrategy == req.diffStrategy
    ensures args.searchSettings == req.searchSettings && args.searchTool == req.searchTool
    ensures args.supportsComputerUse == req.supportsComputerUse
    ensures args.browserViewportSize == req.browserViewportSize && args.mcpHub == req.mcpHub
  {
    ToolArgs(req.cwd, req.searchSettings, req.searchTool, req.supportsComputerUse,
             req.diffStrategy, req.browserViewportSize, req.mcpHub, None)
  }

  /** The section for an already resolved mode configuration. */
  function SectionFor(env: Collaborators, rs: Renderers, req: Request, config: ModeConfig): string
  {
    ToolsSection(rs, ToolSet(env, req, config.groups), RendererArgs(req))
  }

  /** What `getToolDescriptionsForMode` returns, or the error `getModeConfig` throws. */
  function ToolDescriptions(env: Collaborators, rs: Renderers, req: Request): Result<string, string>
  {
    match env.getModeConfig(req.mode, req.customModes)
    case Failure(e) => Failure(e)
    case Success(config) => Success(SectionFor(env, rs, req, config))
  }

  /**
   * `getToolDescriptionsForMode`: resolve the mode (an error propagates
   * unchanged), collect the tool set, then render and join.
   */
  method GetToolDescriptionsForMode(env: Collaborators, rs: Renderers, req: Request) returns (r: Result<string, string>)
    ensures r == ToolDescriptions(env, rs, req)
  {
    var resolved := env.getModeConfig(req.mode, req.customModes);
    if resolved.Failure? {
      return Failure(resolved.error);
    }
    var config := resolved.value;
    var args := RendererArgs(req);
    var tools := CollectTools(env, req, config.groups);
    r := Success(ToolsSection(rs, tools, args));
  }

  /**
   * The assembler fails exactly when `getModeConfig` does, with its error;
   * otherwise the text starts with the heading, and is exactly the heading when
   * no tool of the set renders a non-empty description.
   */
  lemma ToolDescriptionsShape(env: Collaborators, rs: Renderers, req: Request)
    ensures ToolDescriptions(env, rs, req).Failure? <==> env.getModeConfig(req.mode, req.customModes).Failure?
    ensures env.getModeConfig(req.mode, req.customModes).Failure? ==>
      ToolDescriptions(env, rs, req).error == env.getModeConfig(req.mode, req.customModes).error
    ensures ToolDescriptions(env, rs, req).Success? ==>
      var config := env.getModeConfig(req.mode, req.customModes).value;
      Heading <= ToolDescriptions(env, rs, req).value &&
      (ToolDescriptions(env, rs, req).value == Heading <==>
       Descriptions(rs, ToolSet(env, req, config.groups), RendererArgs(req)) == [])
  {
  }

  /** The non-empty description of an always-available tool is always among the joined descriptions. */
  lemma AlwaysAvailableDescribed(env: Collaborators, rs: Renderers, req: Request, config: ModeConfig, t: ToolName)
    requires t in env.alwaysAvailable
    requires DescribeTool(rs, t, RendererArgs(req)).Some? && DescribeTool(rs, t, RendererArgs(req)).value != ""
    ensures DescribeTool(rs, t, RendererArgs(req)).value in Descriptions(rs, ToolSet(env, req, config.groups), RendererArgs(req))
  {
    AlwaysAvailableIncluded(env, req, config.groups);
    DescriptionsMembers(rs, ToolSet(env, req, config.groups), RendererArgs(req), DescribeTool(rs, t, RendererArgs(req)).value);
  }

  /**
   * Every joined description is the description of a tool in the set; so a
   * group tool that the gate refused and that is not always available cannot
   * contribute text.
   */
  lemma DescribedOnlyFromToolSet(env: Collaborators, rs: Renderers, req: Request, config: ModeConfig, d: string)
    requires d in Descriptions(rs, ToolSet(env, req, config.groups), RendererArgs(req))
    ensures d != ""
    ensures exists t :: t in ToolSet(env, req, config.groups) && DescribeTool(rs, t, RendererArgs(req)) == Some(d)
  {
    DescriptionsMembers(rs, ToolSet(env, req, config.groups), RendererArgs(req), d);
  }

  /** Without a diff strategy, apply_diff renders the empty string, and so adds nothing wherever it sits. */
  lemma ApplyDiffWithoutStrategy(rs: Renderers, req: Request, a: seq<ToolName>, b: seq<ToolName>)
    requires req.diffStrategy.None?
    ensures DescribeTool(rs, "apply_diff", RendererArgs(req)) == Some("")
    ensures Descriptions(rs, a + ["apply_diff"] + b, RendererArgs(req)) == Descriptions(rs, a + b, RendererArgs(req))
  {
    SilentToolContributesNothing(rs, a, "apply_diff", b, RendererArgs(req));
  }

  /** With a diff strategy, apply_diff's text is the strategy's, asked with the cwd and no tool options. */
  lemma ApplyDiffWithStrategy(rs: Renderers, req: Request)
    requires req.diffStrategy.Some?
    ensures DescribeTool(rs, "apply_diff", RendererArgs(req)) ==
      Some(req.diffStrategy.value.getToolDescription(DiffDescriptionArgs(req.cwd, None)))
  {
  }

  /** The three argument-free renderers give the same text whatever the arguments. */
  lemma ArgumentFreeRenderers(rs: Renderers, name: ToolName, a1: ToolArgs, a2: ToolArgs)
    requires name in ToolDescriptionMap && ToolDescriptionMap[name] == Constant
    ensures DescribeTool(rs, name, a1) == DescribeTool(rs, name, a2) == rs.describeConstant(name)
  {
  }

  /** Removing an unknown group entry from the resolved configuration leaves the section unchanged. */
  lemma UnknownGroupSectionUnchanged(env: Collaborators, rs: Renderers, req: Request, config: ModeConfig, k: nat)
    requires k < |config.groups| && env.getGroupName(config.groups[k]) !in env.toolGroups
    ensures SectionFor(env, rs, req, config) ==
            SectionFor(env, rs, req, config.(groups := config.groups[..k] + config.groups[k + 1..]))
  {
    UnknownGroupIgnored(env, req, config.groups, k);
  }
}
