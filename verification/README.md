# DotX64Dbg plugin manager: registry bookkeeping and event fan-out

A Dafny model of two sequential parts of the DotX64Dbg managed plugin
manager:

- **The plugin registry** (`Plugins` in `src/Dotx64Managed/Plugins.cs`). It
  holds the ordered list `Registered` of `Plugin` records. Each record has a
  path, optional `PluginInfo` metadata, a list of source files, a
  `RequiresRebuild` flag and an optional loaded instance. The model covers:
  - the dependency-list normalisation inside `GetPluginInfo`: a null list
    becomes empty, then duplicates are dropped and the rest is sorted;
  - `CheckDependeniesChanged`;
  - `RegisterPlugin`, `LoadPlugin`, `RemovePlugin`, `FindPlugin`,
    `RebuildOrUnloadPlugin` and `GetPluginInstances`;
  - `Plugin.ProjectFilePath`.
- **The host-event handlers** (`Manager` in
  `src/Dotx64Managed/Manager.Events.cs`). Each of the nine handlers takes one
  snapshot of the live instances and calls the matching `IPlugin` capability
  on each of them.

Modules:

- `Wrappers` holds `Option`, which stands for the source's nullable references.
- `Paths` holds `Path.Combine` and `Path.GetFileName` with Windows separators.
- `Dependencies` holds the normalisation and the comparison.
  `Array.Sort` uses the culture's default string comparer. The model takes
  it as a parameter `lt`, any strict total order on strings.
  `OrdinalLess` is one such order, proved to be one.
- `Registry` holds the `PluginInfo` datatype, the `Plugin` class and the
  `Plugins` class. `Plugin` is a class because `LoadPlugin` and
  `RebuildOrUnloadPlugin` update its fields in place. `Plugins` owns
  `registered`, a sequence of `Plugin` references.
- `Events` holds the nine handlers. `ForEach` is the reference definition of
  one fan-out. `Dispatch` is the loop all handlers share, and it is proved
  equal to `ForEach`.

Environment inputs are parameters:

- the result of deserialising `plugin.json` (`None` when reading or parsing
  fails);
- the enumerated source files;
- whether the project file exists;
- whether a given capability call throws (`throws(instance, call)`).

The registry calls some members that are defined in other files of the
class. The model records each call as an abstract effect on the `Plugins`
object:

- `TriggerRebuild` increments `rebuildRequests`;
- `UnloadPlugin` appends the record to `unloadRequests`;
- `GenerateProject` appends the record to `generatedProjects`.

Where the design description of the system and the code disagree, the model
follows the code:

- **Event fan-out stops at the first failure.** The design says one plugin's
  failing handler never prevents delivery to the others. In the code the
  single `try/catch` surrounds the whole `ForEach`
  (Manager.Events.cs:98-108). So the first instance that throws ends the
  delivery, and later instances receive nothing. `ForEachStopsAtFirstThrow`
  and `SecondOfThreeThrows` state this. In the second lemma, three instances
  receive an event, the second throws, and the third is never called.
- **One path can have several records.** The design says a path has at most
  one record. `RegisterPlugin` appends a new record without looking for an
  existing one, so the count of records with that path goes up by one each
  time. `RemovePlugin` and `FindPlugin` act on the first match only.
- **Records are registered without metadata.** The design registers a
  plugin only when its descriptor parses. The code also registers a record
  whose `Info` is null. It then skips `LoadPlugin` for that record.
- **A null `Info` can throw in `RebuildOrUnloadPlugin`.** When the source
  list is empty, the unload branch builds its debug line from
  `plugin.Info.Name`. With a null `Info` this dereference fails before
  `UnloadPlugin` runs. The model returns `NullReference` in that case and
  changes nothing.

## Model

| member | source | states |
|---|---|---|
| `Dependencies.Distinct` | src/Dotx64Managed/Plugins.cs:196 | the result has no duplicates and holds exactly the elements of the input |
| `Dependencies.Sort` | src/Dotx64Managed/Plugins.cs:199 | the sorted list is a permutation of the input (same multiset) |
| `Dependencies.SortAscending` | src/Dotx64Managed/Plugins.cs:199 | for a strict total order and a duplicate-free input, the sorted list is strictly ascending |
| `Dependencies.AscendingUnique` | src/Dotx64Managed/Plugins.cs:198-199 | two strictly ascending lists with the same elements are equal, so the sort result does not depend on the algorithm |
| `Dependencies.Normalize` | src/Dotx64Managed/Plugins.cs:189-199 | a null list becomes empty; the result is strictly ascending, has no duplicates, and has exactly the elements of the input |
| `Dependencies.NormalizeSetDeterministic` | src/Dotx64Managed/Plugins.cs:195-199 | inputs with the same element set give the same normalised list, whatever their order or repetitions |
| `Dependencies.NormalizeKeepsAscending` | src/Dotx64Managed/Plugins.cs:195-199 | an already ascending duplicate-free list is returned unchanged |
| `Dependencies.NormalizeIdempotent` | src/Dotx64Managed/Plugins.cs:189-199 | normalising a normalised list returns it unchanged |
| `Dependencies.SequenceEqual` | src/Dotx64Managed/Plugins.cs:307 | the element-wise walk answers true exactly when the lists are equal |
| `Dependencies.CheckDependeniesChanged` | src/Dotx64Managed/Plugins.cs:302-311 | reports a change exactly when the lists differ element by element; the length test is only a shortcut |
| `Dependencies.NormalizedChangedIffSetsDiffer` | src/Dotx64Managed/Plugins.cs:302-311 | two normalised lists are reported as changed exactly when the sets they came from differ (both directions) |
| `Dependencies.OrdinalIsStrictTotalOrder` | src/Dotx64Managed/Plugins.cs:199 | ordinal string comparison is a strict total order, so it is a valid comparer for the sort |
| `Dependencies.NormalizeExample` | src/Dotx64Managed/Plugins.cs:189-199 | with the ordinal order, ["B", "A", "A"] is stored as ["A", "B"] |
| `Registry.GetPluginInfo` | src/Dotx64Managed/Plugins.cs:181-207 | yields null exactly when the descriptor could not be read or parsed; otherwise keeps every field and replaces the dependencies with a non-null, ascending, duplicate-free list of the same elements |
| `Registry.GetPluginInfoOrderInsensitive` | src/Dotx64Managed/Plugins.cs:195-199 | descriptors that differ only in dependency order or repetition give equal metadata |
| `Registry.Plugin.constructor` | src/Dotx64Managed/Plugins.cs:215-223 | a new record keeps the given metadata, paths and sources, starts with RequiresRebuild false and has no instance |
| `Registry.Plugin.ProjectFilePath` | src/Dotx64Managed/Plugins.cs:51-59 | null exactly when Info is null; otherwise a path ending in `<Info.Name>.csproj` |
| `Registry.LiveInstancesInOrder` | src/Dotx64Managed/Plugins.cs:318-321 | the instance snapshot has one entry per record whose instance is a usable IPlugin and nothing else, in registration order |
| `Registry.IndexOfPath` | src/Dotx64Managed/Plugins.cs:276-286 | the first position whose record has the given path, or the list length when none does |
| `Registry.RemoveFirstPathCounts` | src/Dotx64Managed/Plugins.cs:245-252 | removal takes away exactly one record with the path when there is one, and the count of every other path is unchanged |
| `Registry.RemoveFirstPathOrder` | src/Dotx64Managed/Plugins.cs:245-252 | nothing changes without a match; otherwise only the first match is removed, the other records keep their order, and the next lookup finds the next record with that path |
| `Registry.Plugins.constructor` | src/Dotx64Managed/Plugins.cs:62-70 | the registry starts empty, with no rebuild, unload or generate requests |
| `Registry.Plugins.RegisterPlugin` | src/Dotx64Managed/Plugins.cs:209-237 | appends exactly one fresh record at the end, also when Info is null and also when the path is already registered. The record starts with no instance. It is dirty, with one rebuild requested, only when both descriptor reads succeed. The earlier records are untouched |
| `Registry.Plugins.LoadPlugin` | src/Dotx64Managed/Plugins.cs:255-274 | a failed re-read changes nothing (Info, RequiresRebuild, no rebuild request); a successful one replaces Info, generates a missing project file, sets RequiresRebuild and requests exactly one rebuild |
| `Registry.Plugins.RemovePlugin` | src/Dotx64Managed/Plugins.cs:239-253 | requests the unload, then the list becomes the old list without its first record with the plugin's path |
| `Registry.Plugins.FindPlugin` | src/Dotx64Managed/Plugins.cs:276-286 | null exactly when no record has the path; otherwise the first record with it, the same one RemovePlugin removes |
| `Registry.Plugins.RebuildOrUnloadPlugin` | src/Dotx64Managed/Plugins.cs:288-300 | with no sources the plugin is unloaded and RequiresRebuild is left alone, but a null Info fails first and nothing changes. With sources it sets RequiresRebuild and requests exactly one rebuild |
| `Registry.Plugins.GetPluginInstances` | src/Dotx64Managed/Plugins.cs:313-322 | every snapshot entry is a usable IPlugin instance (full characterisation in LiveInstancesInOrder) |
| `Paths.CombineParts` | src/Dotx64Managed/Plugins.cs:57 | Path.Combine ends with its second part, and starts with the first unless the second is rooted |
| `Paths.FileNameIsLastComponent` | src/Dotx64Managed/Plugins.cs:213 | Path.GetFileName is the separator-free tail of the path |
| `Events.ForEachAllDelivered` | src/Dotx64Managed/Manager.Events.cs:100-103 | if no instance throws, the loop completes and every instance is called exactly once, in snapshot order; with an empty snapshot nothing is called |
| `Events.ForEachStopsAtFirstThrow` | src/Dotx64Managed/Manager.Events.cs:98-108 | if the instance at k throws first, instances 0..k are called once each in order, none after k is, and the exception at k is caught |
| `Events.ForEachCompletesIffNoThrow` | src/Dotx64Managed/Manager.Events.cs:98-108 | the loop runs to the end exactly when no instance in the snapshot throws |
| `Events.ForEachOnlyThisCall` | src/Dotx64Managed/Manager.Events.cs:100-103 | every call made is the handler's own capability with its payload unchanged |
| `Events.SecondOfThreeThrows` | src/Dotx64Managed/Manager.Events.cs:98-108 | with three instances where the second throws, the first two are called and the third never is |
| `Events.Dispatch` | src/Dotx64Managed/Manager.Events.cs:98-108 | the shared try/ForEach/catch loop returns normally on every input, with exactly the calls and ending of ForEach |
| `Events.OnExceptionEvent` | src/Dotx64Managed/Manager.Events.cs:96-109 | one snapshot, fan-out as ForEach, only OnExceptionEvent with the given payload is called, returns normally |
| `Events.OnThreadCreateEvent` | src/Dotx64Managed/Manager.Events.cs:112-126 | one snapshot, fan-out as ForEach, only OnThreadCreateEvent with the given payload is called, returns normally |
| `Events.OnProcessCreateEvent` | src/Dotx64Managed/Manager.Events.cs:129-142 | one snapshot, fan-out as ForEach, only OnProcessCreateEvent with the given payload is called, returns normally |
| `Events.OnThreadExitEvent` | src/Dotx64Managed/Manager.Events.cs:145-158 | one snapshot, fan-out as ForEach, only OnThreadExitEvent with the given payload is called, returns normally |
| `Events.OnProcessExitEvent` | src/Dotx64Managed/Manager.Events.cs:161-175 | one snapshot, fan-out as ForEach, only OnProcessExitEvent with the given payload is called, returns normally |
| `Events.OnBreakpointEvent` | src/Dotx64Managed/Manager.Events.cs:177-190 | one snapshot, fan-out as ForEach, only OnBreakpointEvent with the given payload is called, returns normally |
| `Events.OnSteppedEvent` | src/Dotx64Managed/Manager.Events.cs:192-205 | one snapshot, fan-out as ForEach, only OnSteppedEvent is called, returns normally |
| `Events.OnDebuggerStart` | src/Dotx64Managed/Manager.Events.cs:207-220 | one snapshot, fan-out as ForEach, only OnDebuggerStart with the given file name is called, returns normally |
| `Events.OnDebuggerStop` | src/Dotx64Managed/Manager.Events.cs:222-235 | one snapshot, fan-out as ForEach, only OnDebuggerStop is called, returns normally |

## Left out

- File-system and environment work is not modelled: `SetupDirectories`, `RegisterPlugins` (directory enumeration), `EnumerateSourceFiles`, the `Directory.Exists`/`CreateDirectory` calls for output folders, `IsPluginNameTaken` and `CreatePluginTemplate`. Their results enter as parameters.
- JSON deserialisation in `GetPluginInfo` is an input. The source deserialises the file twice and discards the first result; both calls see the same text, so one input stands for both.
- `GenerateProject` and `GenerateProjects` depend on `ProjectGenerator` and the NuGet framework types, which are not part of this model; a call is only recorded in `generatedProjects`.
- `TriggerRebuild`, `UnloadPlugin`, `WaitForRebuild`, `SkipRebuilding`, the build worker, the file watcher and the dependency resolver chain are defined elsewhere and are concurrent or networked. `TriggerRebuild` and `UnloadPlugin` are recorded as abstract effects. `UnloadPlugin` clearing the instance is not modelled. The wait in `GetPluginInstances` is not modelled. `Initialize` and `Shutdown` are not modelled.
- The `Plugin` fields `Loader`, `AssemblyPath` and `InstanceType` are set only by the assembly loader. That loader is not part of this model.
- The event payload structs are opaque values passed through unchanged. Their fields are not modelled. The `Console.WriteLine` and `Utils.DebugPrintLine` logging is not modelled.
- `Dependencies.Normalize`: the culture-sensitive default comparer can rank two different strings as equal. The model assumes a strict total order. Without one, `Array.Sort` (an unstable sort) could return either order for such strings.
- `Dependencies.Sort`: the source sorts the array in place with introsort. The model sorts a value with insertion sort. `AscendingUnique` shows that, for a duplicate-free list, the result is the same.
- `Registry.Plugin.ProjectFilePath`: the string fields of `PluginInfo` are modelled as non-null. A null `Name` would give `<Path>\.csproj` in the source.
- `Paths.FileNameIsLastComponent`: `Path.GetFileName` also stops at a drive root such as `C:`. The model stops only at separators.
- `Registry.Plugins.RebuildOrUnloadPlugin`: the null-`Info` failure assumes the debug line's argument is evaluated. If `Utils.DebugPrintLine` is compiled out, the argument is not evaluated. `Utils` is not part of this model.
