# Plugin admission filter of the association processor

This project models the one piece of logic in the association processor's
dependency file of the agent: the filter in `pluginExecutionImp.RunPlugins`.
It builds the map of plugin configurations that is handed to the plugin
engine. The filter ranges over the command's map from plugin name to
`PluginState`. It stores a pointer to each plugin's configuration in a fresh `configs`
map (see Findings). It stops the whole walk at the first plugin whose `HasExecuted` flag is
set. Unexecuted plugins visited after that one are dropped, not skipped one
by one.

Go does not fix the order in which a map range visits its keys. The model
therefore takes the order as an extra argument `order`. `order` must be a
duplicate-free list of exactly the map's keys (`Admission.IsIterationOrder`).
Every property below holds for every such order.

- `message.dfy`: module `Message`. `PluginState<C>` holds the configuration (an opaque type `C`) and `hasExecuted`.
- `admission.dfy`: module `Admission`. It defines `IsIterationOrder`, the valid iteration orders of a plugin map. The reference definition is `Admitted`: the configurations of the names visited strictly before `FirstExecuted`, built from `PrefixConfigs`, the map after the first n passes. `SkipEachExecuted` is the alternative policy of skipping each executed plugin on its own. The lemmas about them are here too.
- `processor.dfy`: module `Processor`. `RunPlugins` is the loop itself, a `while` over `order` with an accumulating map, proved equal to `Admitted`. The second half models the loop as written under the range-variable semantics of Go before version 1.22 (see Findings), with `LastVisited` and `SharedVariableView` as its reference functions.

The reference functions `Admitted`, `PrefixConfigs`, `IsIterationOrder`,
`SkipEachExecuted`, `LastVisited` and `SharedVariableView` have no row of
their own below: they are the definitions that the rows' contracts refer to.

The plugin engine (`engine.RunPlugins`) is a function-typed parameter
`engine`. It is applied to the document ID and the admitted map. Its result
is the method's result.

## Model

| member | source | states |
|---|---|---|
| Admission.FirstExecuted | agent/association/processor/dep.go:144-147 | the position at which the walk stops: no plugin before it has executed, and when it is inside the order the plugin there has executed |
| Admission.PrefixConfigsStep | agent/association/processor/dep.go:148 | one pass of the loop adds exactly the visited name, with its plugin's configuration, to the map built so far |
| Admission.AdmittedIsSubMap | agent/association/processor/dep.go:142-149 | every admitted name is a key of the plugin map and carries that plugin's own configuration, so the admitted map is no larger than the plugin map |
| Admission.ExecutedNeverAdmitted | agent/association/processor/dep.go:145-148 | no plugin whose `HasExecuted` is set is ever admitted |
| Admission.StopAtFirstExecuted | agent/association/processor/dep.go:144-147 | for a given order, a name is admitted if and only if it is visited strictly before the first executed plugin |
| Admission.UnexecutedAfterExecutedDropped | agent/association/processor/dep.go:144-147 | a plugin that has not executed but is visited after an executed one is not admitted |
| Admission.AdmittedCount | agent/association/processor/dep.go:142-149 | after the first n passes the map holds exactly n names, and the admitted map holds exactly `FirstExecuted` names |
| Admission.NoneExecutedAdmitsAll | agent/association/processor/dep.go:144-149 | when no plugin has executed, every plugin is admitted with its own configuration, whatever the order |
| Admission.FirstVisitedExecutedAdmitsNone | agent/association/processor/dep.go:145-146 | when the first plugin visited has executed, the admitted map is empty |
| Admission.AdmittedVersusSkipEach | agent/association/processor/dep.go:144-147 | the filter admits a sub-map of what skipping each executed plugin would admit, and the two are equal if and only if every plugin visited after the first executed one has executed too |
| Admission.AdmittedDependsOnOrder | agent/association/processor/dep.go:144 | the same two plugins admit one plugin in one iteration order and none in the other |
| Processor.RunPlugins | agent/association/processor/dep.go:134-152 | the engine receives exactly the reference map `Admitted`; when nothing has executed it receives every plugin; when the first plugin visited has executed it receives the empty map |
| Processor.RunPluginsSharedRangeVariable | agent/association/processor/dep.go:142-151 | as written with one range variable for the whole loop (the class `RangeVariable`, one object standing for `pluginConfig` and overwritten on every pass), the engine receives the admitted names, each mapped to the configuration of the last plugin the loop visited |
| Processor.SharedVariableViewCorrectIff | agent/association/processor/dep.go:144-148 | the shared range variable gives the right map if and only if every admitted plugin has the same configuration as the last plugin visited |
| Processor.SharedVariableMixesConfigurations | agent/association/processor/dep.go:144-148 | with two unexecuted plugins a and b visited in that order, a is handed b's configuration |
| Processor.SharedVariableRunsExecutedConfiguration | agent/association/processor/dep.go:144-148 | when the walk stops at executed plugin b, the admitted plugin a is handed b's configuration |

## Left out

- The wrappers `assocSvcImp.ListAssociations`, `LoadAssociationDetail` and `UpdateAssociationStatus` (dep.go:56-75): each only forwards to the association service package, which is not part of this model (network calls).
- The wrappers `bookkeepingImp.PersistData`, `RemoveData`, `GetDocumentInfo`, `PersistDocumentInfo`, `MoveCommandState` and `DocumentStateDir` (dep.go:90-117): each only forwards to the state manager package, which is not part of this model (disk I/O).
- The wrappers `parserImp.ParseDocumentWithParams` and `InitializeDocumentState` (dep.go:165-178): each only forwards to the parser package, which is not part of this model.
- The body of `engine.RunPlugins` (dep.go:151): plugin execution, the plugin registry, the `sendReply` callback and the cancel flag are not part of this model. The engine is an arbitrary function of the document ID and the admitted map.
- The stop policy circuit breaker (dep.go:50, 73-74): only its parameter is visible here.
- The package-level singletons (dep.go:34-37), the context and the logger.
- Interface conformance: `bookkeepingImp` defines `DocumentStateDir` (dep.go:115) where the interface declares `CmdStateDir` (dep.go:84), and `parserImp` defines `InitializeDocumentState` (dep.go:173) where the interface declares `InitializeCommandState` (dep.go:157). Neither struct satisfies its interface. This compiles because the variables at dep.go:36-37 are not typed as the interfaces. It is a fact about Go's type checking, not something a model of values can state.
- Processor.RunPlugins: the plugin map is a Dafny value, so "the input map is only read" holds by construction rather than by a proved frame. A nil `plugins` pointer, which would panic in Go, is not modelled.
- Processor.RunPlugins: pointers are modelled as copied values (Go 1.22 per-iteration semantics). Pointer identity of the stored `&pluginConfig.Configuration` is not claimed.

## Findings

| source | as written | input that shows it | evidently intended | confidence | as-written member | corrected member |
|---|---|---|---|---|---|---|
| agent/association/processor/dep.go:144-148 | `configs[pluginName] = &pluginConfig.Configuration` stores the address of a field of the range variable. For a module that declares a Go language version before 1.22, that variable is shared by all passes, so every entry points at the same configuration: the last one the loop assigned. | plugins a and b, both unexecuted, with configurations 1 and 2, visited a then b. The engine reads 2 under both names. With b executed instead, a is handed b's configuration 2. | each admitted name carries its own plugin's configuration | medium, not executed; depends on the Go language version the module declares in its go.mod (before 1.22) | Processor.RunPluginsSharedRangeVariable, Processor.SharedVariableMixesConfigurations, Processor.SharedVariableRunsExecutedConfiguration | Processor.RunPlugins |
