# Tool-description assembler

This project models `getToolDescriptionsForMode` and its lookup table
`toolDescriptionMap` from `src/core/prompts/tools/index.ts` in Dafny. The function
builds the "# Tools" section of the assistant's system prompt in four steps:

1. It resolves the mode's configuration with `getModeConfig`. That call may throw.
2. It walks the mode's group entries in order. For each group found in `TOOL_GROUPS`,
   it adds the tools that `isToolAllowedForMode` accepts to an insertion-ordered `Set`.
3. It adds every tool in `ALWAYS_AVAILABLE_TOOLS`, without asking the gate.
4. It looks each tool up in `toolDescriptionMap` and renders it with the invocation
   arguments, with `toolOptions` set to `undefined`. It drops missing and empty
   results and joins the rest with a blank line under the heading `"# Tools\n\n"`.

Files:

- `Wrappers.dfy`: `Option` stands for a value that may be `undefined`. `Result`
  stands for a call that returns a value or throws an error.
- `OrderedSets.dfy`: JavaScript's `Set` with its insertion order, modelled as a
  sequence with no duplicates.
  - `Add` is `set.add`.
  - `Dedup` is the set you get by adding a sequence's elements one by one. It is
    the specification that the loops are proved against.
- `Sequences.dfy`: concatenating a sequence of sequences.
- `ToolPrompts.dfy`: the assembler itself.
  - The set-building half is imperative, as in the source. `CollectTools`, with
    `AddAllowedTools` and `OrderedSets.AddEach`, is made of `while` loops proved
    against `ToolSet`.
  - The rendering half is pure. `DescribeTool`, `Descriptions`, `Join` and
    `ToolsSection` are functions.
  - `GetToolDescriptionsForMode` combines the two halves and is proved equal to
    `ToolDescriptions`.

The model does not rely on the internals of the imported collaborators, so they are
inputs:

- `Collaborators` holds `getModeConfig` (its thrown error becomes `Failure`),
  `getGroupName`, `TOOL_GROUPS`, `ALWAYS_AVAILABLE_TOOLS` and
  `isToolAllowedForMode`.
- `Renderers` holds the per-tool description functions.
- `DiffStrategy` holds the strategy's `getToolDescription`.
- Inputs that are passed through without being inspected are abstract types:
  `FilesSearchSettings`, `McpHub`, `ToolOptions` and `GroupEntry`.
- Every property below holds for all values of these inputs.

Two behaviours of the code differ from what a reader might expect, and the model follows the code:

- With no diff strategy, `apply_diff` renders the empty string `""`, not
  `undefined`. Either way, `filter(Boolean)` drops it.
- The always-available tools are always in the tool set (`AlwaysAvailableIncluded`).
  Their text appears in the output only when their renderer returns non-empty text
  (`AlwaysAvailableDescribed`).

## Model

| member | source | states |
|---|---|---|
| OrderedSets.Add | src/core/prompts/tools/index.ts:73 | `set.add(x)` keeps the old elements in place as a prefix and adds at most one element. Afterwards the set holds exactly the old elements plus `x`. It stays free of duplicates. |
| OrderedSets.Dedup | src/core/prompts/tools/index.ts:64-80 | The set built by adding a sequence's elements in order has no duplicates and is no longer than the sequence. |
| OrderedSets.DedupMembers | src/core/prompts/tools/index.ts:64-80 | The set built from a sequence holds exactly the sequence's elements. |
| OrderedSets.DedupSnoc | src/core/prompts/tools/index.ts:73 | Adding one more element to the input is one more `add` on the set. |
| OrderedSets.AddEach | src/core/prompts/tools/index.ts:80 | The `forEach(tool => tools.add(tool))` loop turns the set built from the earlier adds into the set built from those adds followed by the new list. |
| OrderedSets.DedupOfDistinct | src/core/prompts/tools/index.ts:64-80 | A sequence with no duplicates is its own set, in the same order. |
| OrderedSets.DedupPrefix | src/core/prompts/tools/index.ts:64-80 | Adding more elements keeps the earlier set as a prefix. Everything after that prefix comes from the new elements and was not among the earlier ones. |
| OrderedSets.DedupFirstSeenOrder | src/core/prompts/tools/index.ts:64-83 | The set lists its elements in the order of their first occurrence in the input. |
| ToolPrompts.Allowed | src/core/prompts/tools/index.ts:72 | The gate is asked with the tool, the mode, the custom modes or `[]` when they are absent, and the experiments or `{}` when they are absent. |
| ToolPrompts.GatedTools | src/core/prompts/tools/index.ts:71-75 | Filtering a group's tool list through the gate keeps only tools the gate allows and never lengthens the list. |
| ToolPrompts.GatedToolsMembers | src/core/prompts/tools/index.ts:71-75 | A tool of a group's list survives the gate exactly when it is listed and `isToolAllowedForMode` allows it. |
| ToolPrompts.GroupTools | src/core/prompts/tools/index.ts:68-70 | A group entry whose name is not in `TOOL_GROUPS` contributes no tools. |
| ToolPrompts.GroupToolsMembers | src/core/prompts/tools/index.ts:68-75 | A group entry contributes exactly the tools that are listed in the catalogue group it names and accepted by the gate. |
| ToolPrompts.GrantedToolsMembers | src/core/prompts/tools/index.ts:67-77 | A tool is granted by the mode's groups exactly when the gate allows it and some entry names a catalogue group that lists it. The gate is asked with `customModes ?? []` and `experiments ?? {}`. |
| ToolPrompts.GrantedToolsAppend | src/core/prompts/tools/index.ts:67-77 | The tools granted by `a + b` are the tools granted by `a` followed by those granted by `b`. |
| ToolPrompts.GrantedToolsSnoc | src/core/prompts/tools/index.ts:67-77 | One more group entry adds that entry's allowed tools at the end. |
| ToolPrompts.GatedToolsSnoc | src/core/prompts/tools/index.ts:71-75 | One more tool of a group's list adds that tool at the end when the gate allows it, and nothing otherwise. |
| ToolPrompts.ToolSetMembers | src/core/prompts/tools/index.ts:64-80 | The tool set has no duplicates. A tool is in it exactly when it is always available, or when the gate allows it and some group entry grants it. So a group tool that the gate refuses, and that is not always available, is never in the set. |
| ToolPrompts.AlwaysAvailableIncluded | src/core/prompts/tools/index.ts:80 | Every always-available tool is in the tool set, whatever the mode, its groups and the gate say. |
| ToolPrompts.GroupToolsFirst | src/core/prompts/tools/index.ts:64-80 | The set built from the group tools alone is a prefix of the tool set. Everything after it is an always-available tool that no group had granted. |
| ToolPrompts.ToolSetFirstSeenOrder | src/core/prompts/tools/index.ts:64-83 | Tools at two distinct positions of the set are different tools. The earlier one was first added before the later one. |
| ToolPrompts.UnknownGroupAtFront | src/core/prompts/tools/index.ts:68-70 | A leading group entry with an unknown name grants nothing. |
| ToolPrompts.UnknownGroupIgnored | src/core/prompts/tools/index.ts:68-70 | Removing a group entry whose name is not in `TOOL_GROUPS` leaves the tool set unchanged. |
| ToolPrompts.AddAllowedTools | src/core/prompts/tools/index.ts:71-75 | The inner `forEach` extends the set built so far with exactly the tools of one group that the gate allows, in list order. |
| ToolPrompts.CollectTools | src/core/prompts/tools/index.ts:64-80 | The nested loops and the always-available loop leave the `Set` holding exactly `ToolSet`: the set built from the granted tools followed by the always-available ones. |
| ToolPrompts.DescribeTool | src/core/prompts/tools/index.ts:23-39 | Looking a tool up in `toolDescriptionMap`: a name with no entry gives `undefined`. The three argument-free entries call their renderer with no arguments. The other ten call theirs with the arguments. `apply_diff` gives the diff strategy's `getToolDescription` of `{cwd, toolOptions}`, or `""` without a strategy. |
| ToolPrompts.RenderAll | src/core/prompts/tools/index.ts:83-93 | `Array.from(tools).map(...)` has one lookup result per tool, at the tool's own position. |
| ToolPrompts.Join | src/core/prompts/tools/index.ts:95 | `join` of no parts is `""`. Otherwise the result starts with the first part, followed by the separator when more parts follow. |
| ToolPrompts.KeepNonEmpty | src/core/prompts/tools/index.ts:95 | `filter(Boolean)` keeps only non-empty strings and never lengthens the list. |
| ToolPrompts.KeepNonEmptyAppend | src/core/prompts/tools/index.ts:95 | Filtering keeps the order: filtering `a + b` gives the filtered `a` followed by the filtered `b`. |
| ToolPrompts.KeepNonEmptyMembers | src/core/prompts/tools/index.ts:95 | A string survives the filter exactly when it is non-empty and was rendered. |
| ToolPrompts.DescriptionsAppend | src/core/prompts/tools/index.ts:83-95 | The descriptions of `a + b` are those of `a` followed by those of `b`, so they come out in tool-set order. |
| ToolPrompts.DescriptionsMembers | src/core/prompts/tools/index.ts:83-95 | A string ends up among the descriptions exactly when it is non-empty and is the lookup result of some tool in the list. |
| ToolPrompts.SilentToolContributesNothing | src/core/prompts/tools/index.ts:84-95 | A tool with no map entry, or whose renderer returns `undefined` or `""`, leaves the descriptions and the whole section unchanged wherever it sits. It adds no empty part and no extra separator. |
| ToolPrompts.UnknownToolSilent | src/core/prompts/tools/index.ts:84-87 | A tool with no entry in `toolDescriptionMap` renders nothing. |
| ToolPrompts.JoinEmpty | src/core/prompts/tools/index.ts:95 | Joining non-empty strings gives the empty string only for an empty list. |
| ToolPrompts.JoinAppend | src/core/prompts/tools/index.ts:95 | `join` of two non-empty lists puts exactly one separator between their joins. |
| ToolPrompts.ToolsSection | src/core/prompts/tools/index.ts:95 | The section always starts with `"# Tools\n\n"`. It is exactly that heading when no description survives the filter. |
| ToolPrompts.SectionOfConcatenation | src/core/prompts/tools/index.ts:83-95 | When two tool lists both render text, the section for the two together is the heading, the texts of the first, exactly one `"\n\n"`, then the texts of the second. |
| ToolPrompts.SectionOfOneTool | src/core/prompts/tools/index.ts:95 | A single tool with non-empty text gives the heading followed by that text alone. |
| ToolPrompts.RendererArgs | src/core/prompts/tools/index.ts:54-92 | Every renderer receives all seven invocation fields unchanged (`cwd`, `searchSettings`, `searchTool`, `supportsComputerUse`, `diffStrategy`, `browserViewportSize`, `mcpHub`), with `toolOptions` set to `undefined`. |
| ToolPrompts.GetToolDescriptionsForMode | src/core/prompts/tools/index.ts:41-96 | The assembler returns `ToolDescriptions`: the error of `getModeConfig`, or the section for the resolved mode's tool set. |
| ToolPrompts.ToolDescriptionsShape | src/core/prompts/tools/index.ts:53-95 | The assembler fails exactly when `getModeConfig` fails, with the same error. Otherwise the text starts with the heading, and it is exactly the heading when no tool in the set renders text. |
| ToolPrompts.AlwaysAvailableDescribed | src/core/prompts/tools/index.ts:80-95 | The non-empty description of an always-available tool is always among the joined descriptions. |
| ToolPrompts.DescribedOnlyFromToolSet | src/core/prompts/tools/index.ts:83-95 | Every joined description is non-empty and is the description of some tool in the set. So a group tool that the gate refused and that is not always available cannot contribute text. |
| ToolPrompts.ApplyDiffWithoutStrategy | src/core/prompts/tools/index.ts:35-36 | With no diff strategy, `apply_diff` renders `""` and so adds nothing wherever it sits in the tool list. |
| ToolPrompts.ApplyDiffWithStrategy | src/core/prompts/tools/index.ts:35-36 | With a diff strategy, `apply_diff`'s text is the strategy's `getToolDescription`, called with the invocation's `cwd` and `toolOptions: undefined`. |
| ToolPrompts.ArgumentFreeRenderers | src/core/prompts/tools/index.ts:28-30 | `ask_followup_question`, `attempt_completion` and `switch_mode` give the same text whatever the arguments. |
| ToolPrompts.UnknownGroupSectionUnchanged | src/core/prompts/tools/index.ts:68-70 | Removing an unknown group entry from the resolved configuration leaves the whole section unchanged. |

## Left out

- `getModeConfig`, `getGroupName`, `isToolAllowedForMode`, `TOOL_GROUPS` and `ALWAYS_AVAILABLE_TOOLS` are defined in `utils/modes` and `./tool-groups`, which are not part of this model. They are inputs, and nothing is assumed about them. As a result:
  - Resolving a custom mode that shadows a built-in one happens inside `getModeConfig` and is not modelled.
  - Gating on experiment flags and per-mode restrictions happens inside the gate. The flags are only passed to it.
- The per-tool description renderers (`getReadFileDescription` and the others) live in files that are not part of this model. Their texts are opaque inputs.
- `DiffStrategy` and `McpHub` are host objects. The diff strategy is modelled only as an optional function from `{cwd, toolOptions}` to text, and `McpHub` is an opaque value.
- `ModeConfig` carries only the slug, the name and the group entries, and `getModeConfig`'s error is a `string`. The source's mode configuration also has role and instruction fields, and its thrown value is an `Error` object. The assembler reads only the groups, so in this model the collaborators cannot depend on the omitted fields, and a failure is represented only by its message.
- The model reads only `getModeConfig`'s error. Exceptions thrown by a renderer, the gate or `getGroupName` are not modelled: each of these is a total function.
- Lookups in `TOOL_GROUPS` and `toolDescriptionMap` are modelled as true map membership. A JavaScript object lookup would also find prototype keys such as `"toString"`, and the model does not capture that. For example, a group entry named `"constructor"` makes `TOOL_GROUPS[groupName]` the truthy `Object` function, whose `.tools` is `undefined`, so the `forEach` at line 71 throws instead of skipping the group. A tool named `"toString"` would call `Object.prototype.toString`, and its result `"[object Undefined]"` would appear in the section. The model treats both names as unknown.
- The source's result type is `string`, and a failure of `getModeConfig` escapes as a thrown exception. The model returns it as `Result.Failure`.
- The re-exports at lines 98-101 contain no logic.
- `src/components/chat-view/chat-input/PromptInputWithActions.tsx` is not modelled. It is React and Lexical UI code: event listeners, component state, asynchronous vault reads and editor-state queries.
- `src/components/chat-view/Markdown/MarkdownPlanBlock.tsx` is not modelled. It is presentational markup plus a DOM scroll effect.
- `src/settings/versions/shared.ts` is not modelled. It holds declarative schemas whose meaning lives in a validation library, and most of its bounds are floating point.
- Determinism needs no lemma: every member of the model is a function of its inputs.
