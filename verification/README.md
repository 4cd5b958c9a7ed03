# Verified model of kinoforge's workflow compiler, launch protocols, warm scan, staged scanner and policy verdict

This project models four parts of kinoforge in Dafny and proves what they promise.

**The workflow converter** (`tools/_vendored/seth_workflow_converter.py`) lowers a nested UI graph to a
flat prompt. `NestedGraph` defines the drawing and what an input of it *means*: `InSource` walks the
nested levels, upwards through subgraph inputs and downwards through subgraph outputs, and knows nothing
of expansion; `DrawnRoutes` says the same of routes along drawn links, with no walk and no bound on
depth. The lowering is modelled as the code does it: `Expansion` and `Rounds` expand on live objects
(`LiveWorkflow`: input dictionaries and the links list are heap objects that instances share),
`Boundaries` holds the boundary tables and the recursive resolvers, `Flatten` re-aims links and patches
inputs in place, `Prompt`, `Passthrough`, `NodeClasses`, `ComboSpelling` and `Assembly` emit the prompt,
`Classified` says of the flat nodes alone what is handed on and emitted, and `Convert` puts it together.
The main results: flattening yields exactly the flat workflow the drawing stands for
(`Flatten.FlattenWorkflow`, `Flattening.WireIsDrawn`); an input of the prompt refers to the live end of
its route past the routing nodes exactly when the route fits the order of the traces
(`Convert.DrawingPreserved`), has the primitive's value when the route ends at one
(`Convert.DrawingCarries`) and is no reference when it ends at a bypassed or excluded node
(`Convert.DrawingDeadEnds`); converting any number of times gives equal prompts although every
conversion extends the links list (`Convert.ConvertRepeatedly`); nothing else of the workflow changes
(the `modifies` clauses); the prompt is closed (`Prompt.PromptClosed`). The conditions these theorems
need are predicates of `NestedGraph`; `Hypotheses`, `NodeIds.ColonCollision`,
`Passthrough.AlternationLimit` and `Passthrough.BypassedGetBlocks` show what breaks without them, and
`Sample` exhibits a drawing that satisfies all of them.

**The write-ahead launch protocols** (`src/kinoforge/cli/_commands.py`). `LaunchProtocol` is a step
relation over what a crash leaves behind (index, pod, unconfirmed destroys) with the safety theorem;
`LaunchRow` holds the classes that refine it while any store write may be lost or may fail after it took
effect (a row under an empty id names nothing, in both protocols); `BatchRecovery` is the search for a
batch's own pod. `ProvisionLedger` and `Provision` do the same for the ledger rows of `provision` and
`deploy`, and `DoubleBooking` says when two pods of one capability key can be up: the guard against
booking twice looks for a row with the key, and a call whose create raises, whose instance has no key tag
or no id, or, in `deploy`, that fails and cannot destroy its instance, leaves a pod and no such row
(`DoubleBooking.SecondPodExactly`). Collaborators in `src/kinoforge/core` (the ephemeral
index, the ledger, the orchestrator's teardown) are modelled from their own code.

**The warm scan** of the same file is `WarmScan`, **the staged-diff scanner** (`tools/scan_secrets.py`) is
`DiffText`, `StagedDiff`, `StagedLines` and `StagedScan`, and **the policy verdict** (`tools/validate_scoped_policy.py`) is
`ScopedPolicy`. `Wrappers`, `OrderedMap`, `Grouping`, `Filters` and `Runs` are shared: carriers,
insertion-ordered dictionaries, setdefault-and-append, filtering, and runs of a step relation. `Guards`
shows that the converter's depth guards are silent for every workflow without colons in its own ids.

Places where the code does not keep a promise of its own documentation, each with the exact condition:

- The three traces run in a fixed order, not to a fixpoint: `Passthrough.TraceComplete` says which routes are resolved.
- A dynamic combo reads its selection from the widget values before control values are filtered out; it brings the inputs of its own value, whatever its options, if and only if both lists hold the same value at its place: `NodeClasses.ComboReadsItsValue`, `NodeClasses.ComboMisreads`.
- Combo normalisation is not always idempotent: `ComboSpelling.NormaliseTwice`.
- When a create hands over an instance without an id, the hook of an ephemeral launch writes a row under the empty id and drops the reserved row, the only one that named the pod: `LaunchRow.Command.Generate`, `LaunchRow.Command.Batch`.
- A batch whose own ledger row cannot be found and whose destroy is unconfirmed loses both rows of its pod: `LaunchRow.Command.Batch`.
- `deploy` does not look at an empty instance id and gives up the launching row for it: `Provision.Booker.DeployCommand`.
- The staged-diff parser is not immune to every added line: a boundary of `splitlines` inside a line can expose text that reads as a header. A line does no harm among whole lines if and only if no piece cut off it begins a file or counts as a hunk (`StagedLines.HarmlessLines`); a piece that begins a file makes the scanner miss what later hunks add (`StagedLines.SecretIsMissed`), a piece that counts as a hunk makes it scan lines that were not added (`StagedLines.FormFeedIsRead`).

## Model

| member | source | states |
|---|---|---|
| Flatten.FlattenWorkflow | tools/_vendored/seth_workflow_converter.py:266-500 | expansion, re-aiming and patching on shared objects give exactly the flat workflow the drawing stands for; for drawings nested at most ten deep no subgraph node is left and each input is fed by the end of its route along drawn links; only the links list is written, it only grows, and it stays faithful to the drawing |
| DrawnRoutes.DrawnNodes | tools/_vendored/seth_workflow_converter.py:266-335 | for drawings nested at most ten deep the flat workflow has exactly the ordinary nodes of the drawing, however deep, each once |
| DrawnRoutes.DrawnNode | tools/_vendored/seth_workflow_converter.py:266-500 | each is unchanged but for its id and its inputs' sources, and an input is fed by p if and only if a route along drawn links, up through ports, across and down, leads from it to p |
| DrawnRoutes.InSourceIsEnd | tools/_vendored/seth_workflow_converter.py:338-423 | the walk that gives an input its meaning is the end of the one route of any length |
| DrawnRoutes.FeedsPortIs | tools/_vendored/seth_workflow_converter.py:296-321 | an outer input feeds the last port of its own name, or, when none has it, the port at its own position |
| Flattening.WireIsDrawn | tools/_vendored/seth_workflow_converter.py:425-500 | following a remaining input's link, patched or not, through the link map leads to the source the nested drawing feeds it from, and nowhere if it feeds nothing |
| Flattening.CopyMeans | tools/_vendored/seth_workflow_converter.py:434-462 | a copied link's resolved source is the drawn source of the input it ends at |
| Flattening.UpdateMeans | tools/_vendored/seth_workflow_converter.py:448-452 | a recorded update is due only on an input drawn from a port, and its link leads to that input's drawn source |
| Flattening.UpdateExists | tools/_vendored/seth_workflow_converter.py:448-475 | every input drawn from a port and fed from outside has an update |
| Wiring.SourceSide | tools/_vendored/seth_workflow_converter.py:338-358 | resolving an output through the recorded tables is the downward walk of the drawing |
| Wiring.TargetSound | tools/_vendored/seth_workflow_converter.py:395-423 | every input a link is re-aimed into has the drawn source of the link's own end, through any number of levels and any fan-out |
| Wiring.TargetComplete | tools/_vendored/seth_workflow_converter.py:395-423 | every input whose upward walk passes through a link's end is among the inputs the link is re-aimed into |
| Boundaries.OutMapIsFeed | tools/_vendored/seth_workflow_converter.py:138-147 | the recorded inner output of a port is the source of the link that the definition draws to that port |
| Boundaries.InMapSound | tools/_vendored/seth_workflow_converter.py:120-136 | a recorded target of a port is the end of a link the definition draws from that port |
| Boundaries.InMapComplete | tools/_vendored/seth_workflow_converter.py:120-136 | every link drawn from a port has its end recorded for the port |
| Boundaries.GuardsNeverFire | tools/_vendored/seth_workflow_converter.py:338-423 | over tables recorded under ids of at most ten parts, both resolvers return what the unguarded walks return: the depth guards never cut them short |
| Guards.ExpansionNeverGuarded | tools/_vendored/seth_workflow_converter.py:266-423 | for every workflow without colons in its own ids, circular or otherwise ill-formed, the tables recorded for the nodes that ten rounds expand never make a resolver's depth guard fire |
| Guards.AfterShallow | tools/_vendored/seth_workflow_converter.py:149-155 | after k rounds every prefixed id has at most k colons, whatever the definitions are |
| Guards.TablesRecordedOnly | tools/_vendored/seth_workflow_converter.py:266-335 | the tables of a conversion are recorded for expanded nodes only |
| Frontier.BoundSuffices | tools/_vendored/seth_workflow_converter.py:266-335 | no expandable node is left after the bounded loop if and only if definitions nest at most ten deep |
| Frontier.RoundAfter | tools/_vendored/seth_workflow_converter.py:270-327 | one round applied to what k rounds leave is what k+1 rounds leave |
| Frontier.UnfoldJoin | tools/_vendored/seth_workflow_converter.py:270-327 | what comes earlier in a level stays earlier, with everything inside it |
| Frontier.AfterInPlace | tools/_vendored/seth_workflow_converter.py:149-155 | after every round each listed id is the path of its node in the drawing, and expandable nodes are exactly as deep as the round |
| Frontier.AfterComplete | tools/_vendored/seth_workflow_converter.py:270-327 | no node of the drawing that should remain is lost in any round |
| Frontier.AfterDistinct | tools/_vendored/seth_workflow_converter.py:149-155 | the prefixed ids are pairwise distinct after every round |
| Frontier.FinishedStays | tools/_vendored/seth_workflow_converter.py:329-332 | leaving the loop early changes nothing: a finished list is a fixed point of further rounds |
| Frontier.NoLevelBelow | tools/_vendored/seth_workflow_converter.py:329-332 | when the loop leaves early no subgraph node is left deeper in the drawing |
| NodeIds.SplitQualify | tools/_vendored/seth_workflow_converter.py:153-153 | a prefixed id gives back its level and its inner id, and is one deeper |
| NodeIds.QualifyInjective | tools/_vendored/seth_workflow_converter.py:153-153 | two prefixed ids are equal only for equal levels and equal inner ids |
| NodeIds.ColonCollision | tools/_vendored/seth_workflow_converter.py:153-153 | with a colon inside an inner id two different nodes get one id |
| Expansion.MaxLinkId | tools/_vendored/seth_workflow_converter.py:87-95 | the result bounds every link id of the list and is not negative |
| Expansion.BuildRemap | tools/_vendored/seth_workflow_converter.py:97-104 | every link of the definition gets a fresh id above the base, different links different ids |
| Expansion.BuildInMap | tools/_vendored/seth_workflow_converter.py:120-136 | the loop fills the port table of the definition |
| Expansion.BuildOutMap | tools/_vendored/seth_workflow_converter.py:138-147 | the loop fills the output table of the definition in insertion order |
| Expansion.BuildSlotMap | tools/_vendored/seth_workflow_converter.py:303-318 | outer slots are mapped to ports by name, the last port of a name winning |
| Expansion.ExpandInputs | tools/_vendored/seth_workflow_converter.py:156-181 | inputs fed by a link of the definition become fresh copies with the remapped link or none; all others are the definition's own dictionaries |
| Expansion.ExpandLinks | tools/_vendored/seth_workflow_converter.py:183-207 | the links that touch no virtual node are emitted with remapped ids and prefixed ends, in order |
| Expansion.ExpandSubgraph | tools/_vendored/seth_workflow_converter.py:68-209 | one expansion: nodes, links and both tables, link ids fresh for the list, copies fresh, the definition untouched |
| Rounds.ExpandNode | tools/_vendored/seth_workflow_converter.py:277-323 | expanding one live node records its definition's tables, extends the list by faithful copies with distinct ids, and yields nodes whose inputs name the copies of their drawn links |
| Rounds.ExpandRound | tools/_vendored/seth_workflow_converter.py:270-327 | each round keeps link ids distinct, every list entry a copy of a drawn link, every remapped input naming the copy with its own prefixed ends, and writes nothing but the links list |
| Rounds.ExpandAll | tools/_vendored/seth_workflow_converter.py:266-335 | at most ten rounds on the live workflow leave the nodes of the drawing unfolded ten rounds, with the tables of exactly the subgraph nodes met |
| LiveWorkflow.LinkList.Extend | tools/_vendored/seth_workflow_converter.py:293-293 | the workflow's own list is extended in place |
| Flatten.RecordTargets | tools/_vendored/seth_workflow_converter.py:444-452 | a link's updates are recorded for exactly the inputs it is re-aimed into beyond its own end |
| Flatten.ResolveLinks | tools/_vendored/seth_workflow_converter.py:425-500 | the updates and the link map are those of the whole list, resolved through the tables |
| Flatten.PatchInputs | tools/_vendored/seth_workflow_converter.py:464-475 | in-place patching gives every input its updated link and writes no dictionary but those with an update, given that none of these is shared |
| Flatten.DueUnshared | tools/_vendored/seth_workflow_converter.py:149-181 | instances of one definition do not interfere: a dictionary about to be patched is a copy made for that one input, never the definition's, a top-level node's or another instance's (with lines 464-475) |
| NestedGraph.FeedUnique | tools/_vendored/seth_workflow_converter.py:158-178 | in a well-formed level at most one link ends at an input |
| Passthrough.FindThrough | tools/_vendored/seth_workflow_converter.py:658-696 | the scan finds the first fed input of the output's own type, or the first fed input when there is none, and nothing exactly when no input is fed |
| Passthrough.BypassStepAt | tools/_vendored/seth_workflow_converter.py:655-727 | a bypassed node hands on, for an output, what feeds its first fed input of the output's type, or when there is none what feeds its first fed input |
| Passthrough.GetSetUntil | tools/_vendored/seth_workflow_converter.py:611-641 | a trace through Get nodes follows them to where they end or where a node repeats, cycles included |
| Passthrough.RerouteUntil | tools/_vendored/seth_workflow_converter.py:730-751 | the same for Reroutes |
| Passthrough.BypassedUntil | tools/_vendored/seth_workflow_converter.py:643-727 | the same for bypassed nodes, each with the Get nodes and then the Reroutes behind it |
| Passthrough.TraceSound | tools/_vendored/seth_workflow_converter.py:611-751 | the pipeline ends, cycles included, and what it returns is reached from the start by hand-through steps |
| Passthrough.TraceComplete | tools/_vendored/seth_workflow_converter.py:815-853 | for every whole acyclic route to a live end, bypassed Get and Reroute nodes included, the pipeline returns the end if and only if what the nodes hand on by fits the order of the traces |
| Passthrough.FitsExactly | tools/_vendored/seth_workflow_converter.py:811-853 | for routes with one way on at every stop: the order of the traces copes exactly when the value goes from a Reroute on to a Get node at most once, and only behind the last bypassed node |
| Passthrough.TraceExactly | tools/_vendored/seth_workflow_converter.py:833-853 | for every whole route the traces are stuck exactly at a bypassed end they cannot leave, and otherwise stop exactly where their fixed order leaves off |
| Passthrough.AlternationLimit | tools/_vendored/seth_workflow_converter.py:848-853 | with three Get/Reroute alternations the trace stops at a Get node that still hands on |
| Passthrough.BypassedGetBlocks | tools/_vendored/seth_workflow_converter.py:833-846 | behind a Reroute a bypassed Get node ends the trace although it hands a value on |
| Prompt.Classify | tools/_vendored/seth_workflow_converter.py:502-608 | the first pass collects the variables, Set sources, Reroute sources, primitives, bypassed and excluded nodes of the flat workflow, later entries replacing earlier ones |
| Classified.HandsOnExactly | tools/_vendored/seth_workflow_converter.py:502-570 | said of the nodes: a Get node hands on what the last fed Set node of its variable is first fed by, a Reroute what feeds its first input, a node of mode 4 what feeds its input of the output's type (with lines 610-749) |
| Classified.RouteExactly | tools/_vendored/seth_workflow_converter.py:610-749 | the whole routes of the prompt theorems are chains of nodes each of which hands on the next and nothing else |
| Classified.PrimsAre | tools/_vendored/seth_workflow_converter.py:527-536 | a node carries a value exactly when it is a PrimitiveNode with widget values, and it is the first of them |
| Classified.SetsAre | tools/_vendored/seth_workflow_converter.py:538-552 | a variable is fed by what the last of its Set nodes that is fed at all is first fed by |
| Classified.EntryExactly | tools/_vendored/seth_workflow_converter.py:755-781 | a node has an entry exactly when it is typed, of neither mode 2 nor 4, no note, routing or LoadImageOutput node, and has a connected output, or is of an output class, or of an unknown class with a fed input (with lines 572-608, 985) |
| Prompt.Excluded | tools/_vendored/seth_workflow_converter.py:572-608 | a node is excluded exactly when it is a LoadImageOutput, or no output is connected and neither an output class nor, for unknown classes, a connected input keeps it |
| Prompt.RefIffWired | tools/_vendored/seth_workflow_converter.py:790-880 | a name in an entry is a reference to a node and slot if and only if no input of that name carries a primitive's value and the last input of that name that settles on a node settles there, whatever widgets, defaults and normalisation do with the name |
| Prompt.CollectedByPosition | tools/_vendored/seth_workflow_converter.py:790-882 | by position: a name's link is that of its last input that settles on a node, its carried value that of its last input that carries one |
| Prompt.RefIffSettled | tools/_vendored/seth_workflow_converter.py:790-880 | for an input whose name is its own: a reference if and only if its trace settles on a node, and to that node |
| Prompt.CarriedIsValue | tools/_vendored/seth_workflow_converter.py:862-985 | an input fed by a primitive has the primitive's value unless a widget gives the name one, in the declared spelling |
| Prompt.RefMeans | tools/_vendored/seth_workflow_converter.py:790-983 | every reference in an entry is the settled trace of one of the node's inputs of that name |
| Prompt.EntryValue | tools/_vendored/seth_workflow_converter.py:883-985 | the value of each name in an entry is its chosen value brought to the declared spelling |
| Prompt.EntryOrder | tools/_vendored/seth_workflow_converter.py:935-985 | in a whole entry, declared names with a value come before declared names that are references |
| Prompt.EntriesOf | tools/_vendored/seth_workflow_converter.py:753-781 | exactly the executable nodes have an entry: typed, not muted, not bypassed, not routing, not excluded (with lines 985) |
| Prompt.PromptClosed | tools/_vendored/seth_workflow_converter.py:514-608 | no reference names a bypassed, excluded or value-carrying primitive node, and its node has an entry if and only if it is typed, unmuted and executes (with lines 755-781, 857-880, 985) |
| Convert.ResolutionIdle | tools/_vendored/seth_workflow_converter.py:855-860 | the subgraph resolution after tracing never changes a traced source |
| Convert.RunTrace | tools/_vendored/seth_workflow_converter.py:811-853 | the steps in their order, with the check for a bypassed end, compute the trace, and what they return is reached by hand-through steps |
| Convert.ConvertToApi | tools/_vendored/seth_workflow_converter.py:233-987 | the prompt is a function of the drawing and the class table alone, and the workflow can be converted again |
| Convert.ConvertRepeatedly | tools/_vendored/seth_workflow_converter.py:233-987 | any number of conversions of one workflow give equal prompts though each extends its links |
| Convert.DrawingPreserved | tools/_vendored/seth_workflow_converter.py:233-987 | for any flat nodes that stand for the drawing, as the flattened ones do, and an input whose name is its own: an emitted node's input refers to the live end of the whole route from its drawn source if and only if the route fits the order of the traces |
| Convert.DrawnStandFor | tools/_vendored/seth_workflow_converter.py:266-500 | the flattened nodes stand for the drawing: distinct ids, and every input with its drawn source |
| Convert.DrawnRouteGives | tools/_vendored/seth_workflow_converter.py:233-987 | whatever its end: for any flat nodes that stand for the drawing, the source of an emitted node's input in the prompt is what the whole route from its drawn source gives |
| Convert.DrawingCarries | tools/_vendored/seth_workflow_converter.py:790-985 | an input whose route ends at a primitive that the traces come to has, in the prompt, the primitive's value unless a widget gives the name one, in the declared spelling |
| Convert.DrawingDeadEnds | tools/_vendored/seth_workflow_converter.py:790-880 | an input whose route ends at a bypassed or excluded node that the traces come to, or are stuck on, is no reference to anything |
| Convert.FreshList | tools/_vendored/seth_workflow_converter.py:246-249 | the drawing's own links are a possible start of a conversion |
| NodeClasses.FilterControl | tools/_vendored/seth_workflow_converter.py:1028-1054 | the scan with look-ahead keeps exactly the values that are no control values, in order |
| NodeClasses.FilteredInOrder | tools/_vendored/seth_workflow_converter.py:1028-1054 | what is kept are the values at the positions that hold none of the four control values, in order |
| NodeClasses.FilterKeepsPrefix | tools/_vendored/seth_workflow_converter.py:1028-1054 | the raw values up to a place are a prefix of the filtered ones if and only if no control value is among them |
| NodeClasses.CollectWidgetNames | tools/_vendored/seth_workflow_converter.py:1140-1205 | the separate running index is always the number of names, so each dynamic combo is read at its own place |
| NodeClasses.WidgetTypes | tools/_vendored/seth_workflow_converter.py:1140-1205 | a declaration has a widget exactly when it is a list of choices, one of five named types, a dynamic combo, or of a type not in capitals (with lines 1103-1137) |
| NodeClasses.PlainPlace | tools/_vendored/seth_workflow_converter.py:1140-1205 | a declaration that is no dynamic combo adds its own name if it has a widget, and nothing else |
| NodeClasses.SubNamesAt | tools/_vendored/seth_workflow_converter.py:1103-1137 | a dynamic combo adds the inputs of the first option whose key is the value at its place, required before optional, behind its own name and a dot |
| NodeClasses.NoSubNames | tools/_vendored/seth_workflow_converter.py:1103-1137 | and nothing without a value at its place or without an option of that key, nor does any other declaration |
| NodeClasses.ComboReadsItsValue | tools/_vendored/seth_workflow_converter.py:1103-1137 | the inputs a dynamic combo brings are those of its own value, whatever its options are, if and only if the raw and the filtered values agree at its place (with lines 1193-1203) |
| NodeClasses.ComboPlace | tools/_vendored/seth_workflow_converter.py:1193-1203 | a dynamic combo's place is the number of names before it, and its inputs follow its own name |
| NodeClasses.ComboBeforeControls | tools/_vendored/seth_workflow_converter.py:1028-1054 | raw and filtered values agree at every place with no control value before or at it |
| NodeClasses.ComboMisreads | tools/_vendored/seth_workflow_converter.py:1103-1137 | behind a seed with a control value the combo's inputs are looked up under the control value and lost (with lines 1193-1203) |
| NodeClasses.CollectOrderedNames | tools/_vendored/seth_workflow_converter.py:1057-1098 | the declared names, required before optional, of the class the node names in its properties, else of its type |
| NodeClasses.MappedAt | tools/_vendored/seth_workflow_converter.py:913-923 | each unlinked name gets the value at its own position |
| NodeClasses.WidgetValueExactly | tools/_vendored/seth_workflow_converter.py:885-923 | a name has a widget value exactly when it is not empty and not linked, and then the filtered value at its last place among the declared names, or the guessed ones when none are declared |
| NodeClasses.TakenOverExactly | tools/_vendored/seth_workflow_converter.py:885-927 | a dictionary of widget values is taken over but for the two preview keys and linked names |
| NodeClasses.WidgetsUnlinked | tools/_vendored/seth_workflow_converter.py:885-927 | a widget value never competes with a link |
| NodeClasses.DefaultsFillGaps | tools/_vendored/seth_workflow_converter.py:1316-1372 | a default is given only to a name without widget, primitive and link |
| NodeClasses.DefaultsExactly | tools/_vendored/seth_workflow_converter.py:1341-1372 | a gap gets the default of the last declaration of its name that has one: the stated one, else the first choice of a list, else the first option of a combo |
| NodeClasses.CollectDefaults | tools/_vendored/seth_workflow_converter.py:1341-1372 | the loop computes the defaults of the declarations in order: the stated default, else a choice list's first entry |
| Assembly.Assemble | tools/_vendored/seth_workflow_converter.py:935-980 | the passes over the four dictionaries give every name its chosen value and the keys their order |
| Assembly.AmongInOrder | tools/_vendored/seth_workflow_converter.py:935-955 | the declared names keep the order they are declared in |
| Assembly.ComposedIsAssembled | tools/_vendored/seth_workflow_converter.py:935-980 | the passes give every name the widget, else primitive, else default, else link value, and the keys one order |
| Assembly.NoneLost | tools/_vendored/seth_workflow_converter.py:957-980 | no name of the four dictionaries is lost and none is made up |
| Assembly.ValuesBeforeLinks | tools/_vendored/seth_workflow_converter.py:939-955 | declared names with a value come before declared names that are only linked |
| Assembly.AssembledUnique | tools/_vendored/seth_workflow_converter.py:935-980 | order and precedence determine the assembled inputs |
| ComboSpelling.Normalise | tools/_vendored/seth_workflow_converter.py:1378-1421 | the nested loops apply the declarations one after the other |
| ComboSpelling.RespellExactly | tools/_vendored/seth_workflow_converter.py:1395-1421 | a text that is no option becomes the first option that differs in letter case alone, and everything else stays |
| ComboSpelling.NormalisedAt | tools/_vendored/seth_workflow_converter.py:1395-1421 | no key is added, dropped or moved, and each value changes by the declarations of its own name only |
| ComboSpelling.OnlyTextChanges | tools/_vendored/seth_workflow_converter.py:1401-1403 | links and values that are not text are left alone |
| ComboSpelling.NormaliseTwice | tools/_vendored/seth_workflow_converter.py:1378-1421 | normalising twice is normalising once for every dictionary if and only if no name is declared in both sections with clashing options |
| ComboSpelling.ClashExists | tools/_vendored/seth_workflow_converter.py:1395-1421 | a concrete pair of option lists clashes |
| Hypotheses.SharedOutputLosesPort | tools/_vendored/seth_workflow_converter.py:138-147 | one inner output on two ports: the first port's links stay on the expanded node |
| Hypotheses.TwoLinksOnePort | tools/_vendored/seth_workflow_converter.py:138-147 | of two links on one port the table can take the other one than the drawing |
| Hypotheses.UnlistedLinkLosesPort | tools/_vendored/seth_workflow_converter.py:138-147 | a link its port does not list leaves the port on the expanded node |
| Hypotheses.DirectWireInventsSource | tools/_vendored/seth_workflow_converter.py:138-147 | an input wired straight to an output resolves to a virtual node's name (with lines 338-358) |
| Hypotheses.PositionCollidesWithName | tools/_vendored/seth_workflow_converter.py:303-318 | a named and an unnamed outer input can be re-aimed into the same inner inputs (with lines 395-423) |
| Hypotheses.UnnamedLinkSharesInput | tools/_vendored/seth_workflow_converter.py:176-181 | an inner input that does not name its link is shared with the definition, and patching writes into the definition (with lines 464-475) |
| Hypotheses.DuplicateIdLosesEntry | tools/_vendored/seth_workflow_converter.py:985 | of two nodes with one id only the later one has an entry |
| Hypotheses.DuplicateLinkIdMisleads | tools/_vendored/seth_workflow_converter.py:107-136 | of two links with one id a port gets the later one's end |
| Hypotheses.ForeignLinkIsFollowed | tools/_vendored/seth_workflow_converter.py:176-178 | an inner input that names no link of its definition follows whatever other link has that id |
| Hypotheses.SkippedSourceDangles | tools/_vendored/seth_workflow_converter.py:762-781 | a muted source, or a Set node used as a source, leaves a reference without an entry (with lines 857-880) |
| Hypotheses.NodeCalledInIsCutOff | tools/_vendored/seth_workflow_converter.py:170-186 | an input fed by a node called like the virtual input node loses its link |
| Hypotheses.NodeCalledOutIsAPort | tools/_vendored/seth_workflow_converter.py:138-147 | a link into a node called like the virtual output node is taken for a port's |
| Hypotheses.TopPortDangles | tools/_vendored/seth_workflow_converter.py:338-358 | a link from a port of the top level resolves to the name of a virtual node, where the drawing feeds nothing |
| Hypotheses.MissingSourceDangles | tools/_vendored/seth_workflow_converter.py:857-880 | a source that is no node leaves a reference to nothing |
| IndexStore.EphemeralIndex.Add | src/kinoforge/core/warm_reuse/ephemeral_index.py:188-208 | the row replaces or joins the rows by id, or the write is lost and reported; a report can also follow a write that took effect |
| IndexStore.EphemeralIndex.Remove | src/kinoforge/core/warm_reuse/ephemeral_index.py:210-216 | only the row of that id goes; a missing id is no error |
| LaunchProtocol.StepKeepsNamed | src/kinoforge/cli/_commands.py:2941-3124 | no store write and no change of the pod leaves a possibly live pod without a row under a non-empty name or id (with lines 3241-3351) |
| LaunchProtocol.RunsStayNamed | src/kinoforge/cli/_commands.py:2941-3124 | at every point of every run a pod that may be alive is named in the index by its reserved name or its own non-empty id, equal or not (with lines 3241-3351) |
| LaunchProtocol.SettledExactly | src/kinoforge/cli/_commands.py:1488-1523 | a pod that survives or whose destroy is in doubt has one row, under its own id and with its endpoints, its provider, both keys of the configuration and the launch's stamp; a gone pod has none under either id; other rows are unchanged (with lines 3058-3124, 3241-3297) |
| LaunchProtocol.SettledRows | src/kinoforge/cli/_commands.py:3241-3297 | field by field: the real row has the instance's endpoints and provider, the reserved row no endpoints and the configuration's provider, both the two keys and the launch's stamp (with lines 2995-3015) |
| LaunchProtocol.RaisingLeaves | src/kinoforge/cli/_commands.py:1040-1086 | a run that raises leaves the reserved row when there is no instance and the real row when there is one, also for a pod whose destroy was confirmed before the raise; other rows are unchanged |
| LaunchRow.Session.MarkDestroyUnconfirmed | src/kinoforge/core/ephemeral.py:243-255 | the id joins the unconfirmed destroys |
| LaunchRow.Session.ResourceName | src/kinoforge/core/ephemeral.py:195-241 | the reserved name is never empty for a run id |
| LaunchRow.Command.Reserve | src/kinoforge/cli/_commands.py:2941-3025 | the reserved row is in the index before anything is booked, or nothing is reserved; exactly a strict session with compute and a run id reserves |
| LaunchRow.Command.Release | src/kinoforge/cli/_commands.py:3028-3055 | at most the one row goes, a failure is contained, and the protocol is kept where another row still names the pod or no pod may be alive |
| LaunchRow.Command.IndexAdd | src/kinoforge/cli/_commands.py:3241-3297 | the real row goes in before the superseded one is dropped, which is skipped when the ids are equal; the protocol is kept unless a live pod has no id |
| LaunchRow.Command.Upgrade | src/kinoforge/cli/_commands.py:3300-3351 | the hook re-keys the row with the launch's stamp and records the key only when the row was written; the protocol is kept unless the live pod has no id |
| LaunchRow.Command.SettleUnused | src/kinoforge/cli/_commands.py:3058-3124 | an unconfirmed destroy keeps the real row, and otherwise the launch id, the upgraded id and the returned id all go; the protocol is kept unless a live pod has no id |
| LaunchRow.Command.FinishLaunchRow | src/kinoforge/cli/_commands.py:1488-1523 | a reused cold create keeps its real row, every other outcome is settled, whichever writes fail; the protocol is kept unless a live pod has no id |
| LaunchRow.Command.Orchestrate | src/kinoforge/core/orchestrator.py:1519-1568 | one orchestrator call with every way it can end keeps the protocol, its hook contained, unless the instance has no id, in which case, with no failed write, some world of the call has the pod unnamed (with lines 1968-1982, 2306-2332) |
| LaunchRow.Command.Created | src/kinoforge/core/orchestrator.py:1553-1568 | the moment the instance exists: its row is upgraded, and an instance without an id is left unnamed |
| LaunchRow.Command.Generate | src/kinoforge/cli/_commands.py:1022-1086 | a whole command, whatever writes fail: once reserved the pod is named in every world a crash can leave unless the instance has no id; with no failed write that is the exact condition, a nameless live pod ends unnamed, and the index is exactly the settled one |
| LaunchRow.Command.SettleBatch | src/kinoforge/cli/_commands.py:3189-3238 | the batch settles with the recovered instance as the other commands do with the returned one; the protocol is kept unless a live pod has no id |
| LaunchRow.Command.Batch | src/kinoforge/cli/_commands.py:2268-2313 | a whole batch keeps the pod named unless the instance has no id, or its own ledger row cannot be found and its destroy is unconfirmed; with no failed write that is the exact condition, and in both cases a pod still alive ends unnamed (with lines 3189-3238) |
| BatchRecovery.Recover | src/kinoforge/cli/_commands.py:3127-3186 | the first entry that is new, has an id and is not a launching row, or none when there is none |
| BatchRecovery.RecoversOwnPod | src/kinoforge/cli/_commands.py:3127-3186 | recovery returns the run's own pod if its row is recorded and new, and otherwise nothing, collapse refused or not |
| Provision.Ledger.Record | src/kinoforge/core/lifecycle.py:590-639 | the row is appended or the write is lost and reported |
| Provision.Ledger.Forget | src/kinoforge/core/lifecycle.py:809-826 | every row of the id goes and no other |
| Provision.Ledger.ForgetProvisional | src/kinoforge/core/lifecycle.py:668-749 | only launching rows of the id go, and none at all when a required real row is missing |
| ProvisionLedger.StepKeepsHandle | src/kinoforge/cli/_commands.py:552-652 | no ledger write and no change of the pod takes the last handle on a possibly live pod |
| ProvisionLedger.RunsKeepHandle | src/kinoforge/cli/_commands.py:552-652 | at every point of every run a pod that may exist has a launching row or a real row with an id |
| ProvisionLedger.ForgottenKey | src/kinoforge/cli/_commands.py:475-492 | forgetting the one recorded row of a key leaves none of that key |
| Provision.Booker.RecordProvisional | src/kinoforge/core/orchestrator.py:619-697 | a row that is reported written is in the ledger before anything is booked |
| Provision.Booker.RecordAndCollapse | src/kinoforge/core/orchestrator.py:819-857 | the real row goes in before the launching rows of the name go, which they do only with a real row there (with lines 923-984) |
| Provision.Booker.ProvisionCommand | src/kinoforge/cli/_commands.py:312-355 | with a provisional row every world of the call has a handle on the pod, empty ids and undeclared errors included; with a readable ledger no key gets a second row, and with no failed write the rows, the pod and the refusal are exactly those of the call (with lines 467-652) |
| Provision.Booker.DeployCommand | src/kinoforge/cli/_commands.py:267-289 | the same for deploy unless the instance has an empty id and becomes ready, in which case, with no failed write, the handle is lost (with deploy in `src/kinoforge/core/orchestrator.py`, lines 2512-2610) |
| Provision.RunCalls | src/kinoforge/cli/_commands.py:267-278 | over any sequence of deploy and provision calls, whatever writes fail, no capability key has two rows; when none fails the rows and the pods that may be alive are those of the fleet that DoubleBooking speaks of (with lines 312-355, 467-492) |
| DoubleBooking.SecondPodExactly | src/kinoforge/cli/_commands.py:267-278 | after a call that left a pod, any further call of the key that leaves a pod makes a second one if and only if the first call raised in the create, had an untagged instance or an empty id, or, for deploy, failed without destroying its instance (with lines 475-507, 552-652) |
| DoubleBooking.TightRunsNeverShare | src/kinoforge/cli/_commands.py:267-278 | over any run of calls and pod deaths, with a truthful provider, a key without such a call never has two pods up, and the one that is up has its row (with lines 475-507) |
| DoubleBooking.NoneUp | src/kinoforge/cli/_commands.py:475-507 | a call that is not refused finds no pod of its key up |
| WarmScan.UniteRows | src/kinoforge/cli/_commands.py:2775-2788 | the rows scanned are the ledger's and the index rows of ids the ledger does not have |
| WarmScan.LedgerShadows | src/kinoforge/cli/_commands.py:2781-2788 | a row of an id the ledger has is a ledger row and is not treated as index-only |
| WarmScan.CoarseFilter | src/kinoforge/cli/_commands.py:2789-2814 | each row is skipped with its first applicable reason or kept, in order |
| WarmScan.StableOrder | src/kinoforge/cli/_commands.py:2815-2819 | the order lists every position once, by decreasing tick and, for equal ticks, by position |
| WarmScan.TryInOrder | src/kinoforge/cli/_commands.py:2823-2876 | the first candidate of the order that passes every gate is taken, and every one before it has one skip |
| WarmScan.ScanWarmCandidates | src/kinoforge/cli/_commands.py:2741-2876 | a hit is a scanned row of the configuration's provider and capability key, not busy, held, refused or short of a wanted stage, has the highest tick of all such rows and is the first with it; on a miss there is no such row and the skips are one reason for every row |
| WarmScan.AttachableIs | src/kinoforge/cli/_commands.py:2789-2876 | a row passes filter and gates exactly when it is scanned, has the configuration's provider and capability key, is in no session that is open and beating, is held by neither lock, is not refused, and is not known to lack a wanted stage |
| WarmScan.ReasonSays | src/kinoforge/cli/_commands.py:2789-2876 | each of the nine reasons is given for exactly the rows it names, the earlier reasons first |
| WarmScan.ScannedIs | src/kinoforge/cli/_commands.py:2775-2788 | a row is scanned exactly when it is a ledger row or an index row with an id that no ledger row has, ledger rows first |
| WarmScan.ReasonCounts | src/kinoforge/cli/_commands.py:2681-2696 | the counting loop counts the reasons of the skip list |
| WarmScan.CountsAddUp | src/kinoforge/cli/_commands.py:2646-2696 | each count is the number of skips with that reason, and the counts add up to the length of the skip list |
| DiffText.SplitJoin | tools/scan_secrets.py:197-197 | a line feed always ends a piece, so a text splits line by line, carriage returns included |
| DiffText.SplitLinesExactly | tools/scan_secrets.py:197-197 | splitlines gives exactly the pieces that are free of the ten boundaries and give the text back with an end behind each, a return and a line feed being one end |
| DiffText.HeaderReadsBack | tools/scan_secrets.py:51-51 | the header pattern reads back start and count of every printed hunk header, omitted counts included |
| DiffText.MatchHunkExactly | tools/scan_secrets.py:51-51 | a line matches the header pattern exactly when it has its form, and the numbers are those of its digits |
| DiffText.NumberDecimal | tools/scan_secrets.py:211-212 | reading a printed decimal number gives the number |
| StagedDiff.ParseRanges | tools/scan_secrets.py:194-216 | the two-state loop computes the fold over the roles of the pieces |
| StagedDiff.RoleExactly | tools/scan_secrets.py:194-216 | a line begins a file, names a target or is a hunk header exactly when it begins with "diff --git ", with "+++ ", or has the form of a header |
| StagedDiff.TargetFileExactly | tools/scan_secrets.py:194-216 | the file of a target line is what is left between white space, without "b/" in front, and none for /dev/null |
| StagedDiff.RunContent | tools/scan_secrets.py:159-170 | inside a file a content line changes nothing but by pieces cut off it that count as hunks |
| StagedDiff.ParseInvertsPrint | tools/scan_secrets.py:151-216 | the parser returns exactly path, start and count of each hunk with added lines, in order, if and only if no piece that splitlines cuts off a hunk's lines reads as a hunk header with lines |
| StagedDiff.TameReadsBack | tools/scan_secrets.py:151-216 | with no boundary inside a line parsing inverts printing, whatever the lines say |
| StagedLines.HarmlessLines | tools/scan_secrets.py:159-216 | an added or removed line does no harm in any diff whose other lines are whole if and only if no piece that splitlines cuts off it begins a file or counts as a hunk |
| StagedLines.HunkCanLose | tools/scan_secrets.py:194-216 | a hunk with a piece that begins a file makes the parser lose a later hunk's range, for a path and line its pieces do not name |
| StagedLines.SecretIsMissed | tools/scan_secrets.py:159-216 | an added line that mentions a diff behind a form feed: what a later hunk adds, at any line and whatever it is, is not reported |
| StagedLines.FormFeedIsRead | tools/scan_secrets.py:159-216 | an added line of a form feed and a hunk header: a range is reported that the diff does not add |
| StagedLines.CarriageReturnIsHarmless | tools/scan_secrets.py:197 | a carriage return at the end of a line does no harm |
| StagedScan.HunksGiveRuns | tools/scan_secrets.py:172-176 | the ranges of a zero-context diff are the runs of added lines, whatever sections and end-of-file marks its hunks are printed with |
| StagedScan.RunsCutAdded | tools/scan_secrets.py:275-278 | the block cut out for each run is that run of added lines |
| StagedScan.ScannedIsAdded | tools/scan_secrets.py:266-283 | the ranges ascend, do not meet and lie inside the new text, and their blocks together are exactly the added lines |
| StagedScan.DiffScansAdded | tools/scan_secrets.py:151-283 | from a printed diff of any number of files to the blocks of any of them: exactly the lines added to it are scanned, whatever sections, end-of-file marks and line ends are printed |
| StagedScan.FindingMapsBack | tools/scan_secrets.py:279-282 | a finding is reported at the line of the whole text that is its line of the block |
| StagedScan.FeedsExactly | tools/scan_secrets.py:276-276 | the pieces of a text are free of line feeds and joined with line feeds give it back, and no other pieces do |
| StagedScan.ScanStaged | tools/scan_secrets.py:266-283 | the hits are the findings of every staged range of every readable path, moved to their lines, and nothing else; for a text of lines joined by line feeds they are the findings in the blocks of those lines |
| StagedScan.HitsOfPath | tools/scan_secrets.py:266-283 | the hits of one path are exactly the findings of its own ranges, moved to where each starts |
| StagedScan.ScanFindsAdded | tools/scan_secrets.py:151-283 | from the printed diff and the staged text, the new lines joined by line feeds, to the hits: what is reported for a file is exactly what the finder finds in its added runs, moved to where each run starts |
| StagedScan.FoundAtItsLine | tools/scan_secrets.py:279-282 | what is found in an added run is reported at the line of the new text that holds it |
| Grouping.GroupedAt | tools/scan_secrets.py:267-269 | grouping under keys loses nothing and keeps the order of each key's values |
| ScopedPolicy.LookupAction | tools/validate_scoped_policy.py:158-195 | granted exactly when an allowing statement has a matching pattern, with the resources of the first such statement, the wildcard as none |
| ScopedPolicy.KeyDecides | tools/validate_scoped_policy.py:158-195 | the simulated resources are those that the first allowing statement with a matching pattern lists, all of them |
| ScopedPolicy.NotApplicableActions | tools/validate_scoped_policy.py:198-231 | exactly the required actions that an absent optional statement asks for and no statement grants |
| ScopedPolicy.OnlyKeyActionsExcused | tools/validate_scoped_policy.py:125-140 | with the actual table only the two key actions are ever excused, and only without their statement |
| ScopedPolicy.VerdictIsAll | tools/validate_scoped_policy.py:273-289 | the verdict is allowed if and only if every record is |
| ScopedPolicy.VerdictIsFirst | tools/validate_scoped_policy.py:273-289 | otherwise it is the first decision that is not allowed |
| ScopedPolicy.GroupActions | tools/validate_scoped_policy.py:385-398 | the ungranted actions and the groups by resources |
| ScopedPolicy.OneGroupEach | tools/validate_scoped_policy.py:385-398 | each required action is simulated in exactly one group, that of its first granting statement |
| ScopedPolicy.SimulateGroups | tools/validate_scoped_policy.py:400-432 | the merged detail holds for each action all its records over all groups in order, and a failed or truncated answer is an error |
| ScopedPolicy.ValidateAws | tools/validate_scoped_policy.py:369-478 | nothing is touched unless confirmed; on every path after creation the throwaway user is deleted unless the deletion fails; a report is given exactly when every group was answered in full |
| ScopedPolicy.ExitMeans | tools/validate_scoped_policy.py:448-464 | against a complete simulator exit 0 holds if and only if each required action is excused, or granted and allowed on every resource of its first granting statement, of which there is one |
| ScopedPolicy.ClassesPartition | tools/validate_scoped_policy.py:448-464 | each required action is in exactly one of allowed, denied, ungranted, not applicable and missing, and missing means granted on an empty list, given a simulator that answers for every listed resource and for nothing else |

## Left out

- Subgraph ids are the keys of the definitions; the UUID shape of `is_subgraph_uuid` is not modelled, so a definition whose id is not a UUID counts as one here.
- Links with fewer than six fields, links without an id and ids that are not integers: the model's links are complete, and their slots are not negative.
- Input dictionaries without a name or type, and a workflow in API format, which the converter returns unchanged.
- Titles, `_meta` and logging.
- Widget values that are dictionaries (`_process_dict_widget_values`), and routing nodes whose widget values are a dictionary.
- The guesses at widget names for nodes whose class names none (lines 1262-1313) are a parameter of the class table, as are the host language's letter-case functions.
- Class declarations that are not a list or tuple, and classes whose declarations cannot be read.
- `resolve_subgraph_input`, the single-target resolver, which nothing calls.
- DrawnRoutes.DrawnNodes: is about drawings nested at most ten deep; deeper ones keep subgraph nodes, in the prompt and in NestedGraph.OutSource alike, as Frontier.BoundSuffices says.
- Guards.TablesRecordedOnly: is about well-formed workflows; for others the tables are not tied to the conversion, and Guards.ExpansionNeverGuarded speaks of tables with an entry for expanded nodes only.
- Convert.DrawingPreserved: is about an input whose name no other input of its node has; with several of one name the last that settles wins, as Prompt.RefIffWired says. DrawingCarries and DrawingDeadEnds are about the same inputs.
- Passthrough.TraceComplete: asks that each node of the route has one answer to what it hands on; a bypassed Reroute whose first input and whose type-matched input differ has two, and the source does not say which is meant.
- Flatten.FlattenWorkflow: asks for a well-formed drawing; Hypotheses and NodeIds.ColonCollision show what the conditions exclude.
- LaunchRow.Command.Generate: the ledger rows and touches that `_stamp_cold_created_instance` writes to the in-memory ledger before the index row are not part of it, nor is a concurrent sweeper.
- LaunchRow.Command.Orchestrate: the orchestrator's contract (a returned instance is the one created; a run told not to reuse ends with a confirmed or a marked destroy) is built into its outcomes.
- Provision.RunCalls: the calls do not overlap and read the ledger, and DoubleBooking is about ledgers whose writes succeed; an unreadable ledger makes provision go on and may double-book, as its own warning says.
- Provision.Booker.ProvisionCommand: the readiness poll and the provisioner are one step that succeeds, or fails with a destroy that works or not.
- WarmScan.ScanWarmCandidates: the locks, the attach chain and the health probe are functions that do not change during a scan; endpoints are those of the resolved instance.
- The text of the scan summary and the order of its terms.
- StagedDiff.ParseInvertsPrint: is about diffs in which no cut-off piece begins a file; what such a piece does is StagedLines.HarmlessLines, HunkCanLose and SecretIsMissed. For a diff with several such pieces there is no single condition on the whole diff: a later piece can name the path again. Paths git has to quote, and `\d` matching other than ASCII digits, are not modelled.
- StagedScan.DiffScansAdded: asks, as ScanFindsAdded does, that no cut-off piece of the diff begins a file or counts as a hunk; what those pieces do is in StagedLines. ScanFindsAdded takes the staged text as the new side of the diff, in the lines the line feed gives.
- Reading the staged blob, its binary check and decoding; the credential patterns are a function from a block to findings.
- ScopedPolicy.ClassesPartition: that an action granted on an empty resource list is missing rests on the assumption that the simulator gives no result for an empty list; the service may read such a list as no restriction.
- ScopedPolicy.ExitMeans: a simulator that answers only in part is not covered; IAM pattern matching and the simulator are functions, JSON parsing and the GCP path are left out.
