/**
 * The plugin registry of Plugins.cs: the PluginInfo metadata record, the
 * Plugin record the registry updates in place, and the Plugins object that
 * owns the ordered list `Registered`.
 *
 * File-system reads become inputs: the result of deserialising plugin.json
 * (None when the file cannot be read or parsed), the enumerated source files
 * and whether a project file exists. Calls into parts of the class that are
 * defined elsewhere (TriggerRebuild, UnloadPlugin, GenerateProject) are
 * recorded as abstract effects on the registry object.
 */
module Registry {
  import opened Wrappers
  import opened Dependencies
  import Paths

  /** The metadata read from plugin.json. `dependencies` is None for a null list. */
  datatype PluginInfo = PluginInfo(
    name: string,
    description: string,
    version: string,
    author: string,
    website: string,
    dependencies: Option<seq<string>>)

  /**
   * GetPluginInfo once the descriptor has been deserialised: None stays None
   * (the catch-all returns null), otherwise the dependency list is
   * normalised and every other field is kept.
   */
  function GetPluginInfo(descriptor: Option<PluginInfo>, lt: (string, string) -> bool): (r: Option<PluginInfo>)
    requires StrictTotalOrder(lt)
    ensures r.None? <==> descriptor.None?
    ensures r.Some? ==>
      && r.value.(dependencies := descriptor.value.dependencies) == descriptor.value
      && r.value.dependencies.Some?
      && StrictlyAscending(r.value.dependencies.value, lt)
      && NoDuplicates(r.value.dependencies.value)
      && (forall x :: x in r.value.dependencies.value <==> x in Items(descriptor.value.dependencies))
  {
    match descriptor
    case None => None
    case Some(d) => Some(d.(dependencies := Some(Normalize(d.dependencies, lt))))
  }

  /**
   * Two descriptors that differ only in the order or repetition of their
   * dependencies give the same metadata.
   */
  lemma GetPluginInfoOrderInsensitive(d1: PluginInfo, d2: PluginInfo, lt: (string, string) -> bool)
    requires StrictTotalOrder(lt)
    requires d1.(dependencies := d2.dependencies) == d2
    requires forall x :: x in Items(d1.dependencies) <==> x in Items(d2.dependencies)
    ensures GetPluginInfo(Some(d1), lt) == GetPluginInfo(Some(d2), lt)
  {
    NormalizeSetDeterministic(d1.dependencies, d2.dependencies, lt);
  }

  /** A loaded object; `isPlugin` says whether it implements IPlugin. */
  datatype Instance = Instance(handle: nat, isPlugin: bool)

  /** The outcome of a call that may dereference a null reference. */
  datatype Completion = Normal | NullReference

  class Plugin {
    var info: Option<PluginInfo>
    const path: string
    const configPath: string
    const buildOutputPath: string
    var sourceFiles: seq<string>
    var requiresRebuild: bool
    var instance: Option<Instance>

    constructor (info: Option<PluginInfo>, path: string, configPath: string,
                 buildOutputPath: string, sourceFiles: seq<string>)
      ensures this.info == info && this.path == path && this.configPath == configPath
      ensures this.buildOutputPath == buildOutputPath && this.sourceFiles == sourceFiles
      ensures !requiresRebuild && instance.None?
    {
      this.info := info;
      this.path := path;
      this.configPath := configPath;
      this.buildOutputPath := buildOutputPath;
      this.sourceFiles := sourceFiles;
      requiresRebuild := false;
      instance := None;
    }

    /** `<Path>\<Info.Name>.csproj`, or null while there is no metadata. */
    function ProjectFilePath(): (r: Option<string>)
      reads this
      ensures r.None? <==> info.None?
      ensures r.Some? ==> Paths.EndsWith(r.value, info.value.name + ".csproj")
    {
      if info.None? then None
      else
        Paths.CombineParts(path, info.value.name + ".csproj");
        Some(Paths.Combine(path, info.value.name + ".csproj"))
    }
  }

  /** The registered record holds an object usable as IPlugin. */
  predicate Live(p: Plugin)
    reads p
  {
    p.instance.Some? && p.instance.value.isPlugin
  }

  /** The LINQ query of GetPluginInstances: the usable instances, in list order. */
  function LiveInstances(ps: seq<Plugin>): seq<Instance>
    reads ps
    decreases |ps|
  {
    if ps == [] then []
    else
      var last := ps[|ps| - 1];
      LiveInstances(ps[..|ps| - 1]) + (if Live(last) then [last.instance.value] else [])
  }

  /** The positions of the live records, ascending. */
  ghost function LiveIndices(ps: seq<Plugin>): seq<nat>
    reads ps
    decreases |ps|
  {
    if ps == [] then []
    else LiveIndices(ps[..|ps| - 1]) + (if Live(ps[|ps| - 1]) then [|ps| - 1] else [])
  }

  /**
   * The snapshot holds one entry per live record and nothing else, in
   * registration order: its j-th entry is the instance of the j-th live record.
   */
  lemma {:induction false} LiveInstancesInOrder(ps: seq<Plugin>)
    ensures |LiveInstances(ps)| == |LiveIndices(ps)|
    ensures forall j :: 0 <= j < |LiveIndices(ps)| ==>
      && LiveIndices(ps)[j] < |ps|
      && Live(ps[LiveIndices(ps)[j]])
      && LiveInstances(ps)[j] == ps[LiveIndices(ps)[j]].instance.value
    ensures forall j, k :: 0 <= j < k < |LiveIndices(ps)| ==> LiveIndices(ps)[j] < LiveIndices(ps)[k]
    ensures forall i :: 0 <= i < |ps| && Live(ps[i]) ==> i in LiveIndices(ps)
  {
    if ps != [] {
      var init := ps[..|ps| - 1];
      LiveInstancesInOrder(init);
      assert forall i :: 0 <= i < |init| ==> init[i] == ps[i];
    }
  }

  /** Number of records registered under `path`. */
  function CountPath(ps: seq<Plugin>, path: string): nat {
    if ps == [] then 0
    else (if ps[0].path == path then 1 else 0) + CountPath(ps[1..], path)
  }

  /** Position of the first record registered under `path`, or |ps| if none. */
  function IndexOfPath(ps: seq<Plugin>, path: string): (k: nat)
    ensures k <= |ps|
    ensures forall i :: 0 <= i < k ==> ps[i].path != path
    ensures k < |ps| ==> ps[k].path == path
  {
    if ps == [] then 0
    else if ps[0].path == path then 0
    else 1 + IndexOfPath(ps[1..], path)
  }

  /** `ps` without its first record registered under `path`. */
  function RemoveFirstPath(ps: seq<Plugin>, path: string): seq<Plugin> {
    var k := IndexOfPath(ps, path);
    if k == |ps| then ps else ps[..k] + ps[k + 1..]
  }

  lemma {:induction false} CountPathAppend(a: seq<Plugin>, b: seq<Plugin>, path: string)
    ensures CountPath(a + b, path) == CountPath(a, path) + CountPath(b, path)
  {
    if a == [] {
      assert a + b == b;
    } else {
      assert (a + b)[1..] == a[1..] + b;
      CountPathAppend(a[1..], b, path);
    }
  }

  lemma {:induction false} CountPathZero(ps: seq<Plugin>, path: string)
    ensures CountPath(ps, path) == 0 <==> IndexOfPath(ps, path) == |ps|
  {
    if ps != [] {
      CountPathZero(ps[1..], path);
    }
  }

  /**
   * Removal takes away exactly one record registered under `path` when there
   * is one, and leaves the count of every other path alone.
   */
  lemma RemoveFirstPathCounts(ps: seq<Plugin>, path: string, q: string)
    ensures CountPath(RemoveFirstPath(ps, path), q) ==
      if q == path && CountPath(ps, path) > 0 then CountPath(ps, q) - 1 else CountPath(ps, q)
  {
    var k := IndexOfPath(ps, path);
    CountPathZero(ps, path);
    if k < |ps| {
      assert ps == ps[..k] + ([ps[k]] + ps[k + 1..]);
      CountPathAppend(ps[..k], [ps[k]] + ps[k + 1..], q);
      CountPathAppend([ps[k]], ps[k + 1..], q);
      CountPathAppend(ps[..k], ps[k + 1..], q);
    }
  }

  /**
   * Removal keeps the other records in their order, and a later lookup of
   * the same path finds the next record registered under it, if any.
   */
  lemma RemoveFirstPathOrder(ps: seq<Plugin>, path: string)
    ensures IndexOfPath(ps, path) == |ps| ==> RemoveFirstPath(ps, path) == ps
    ensures IndexOfPath(ps, path) < |ps| ==>
      var k, r := IndexOfPath(ps, path), RemoveFirstPath(ps, path);
      && |r| == |ps| - 1
      && (forall i :: 0 <= i < |r| ==> r[i] == if i < k then ps[i] else ps[i + 1])
      && IndexOfPath(r, path) == k + IndexOfPath(ps[k + 1..], path)
  {
    var k := IndexOfPath(ps, path);
    if k < |ps| {
      IndexOfPathAppend(ps[..k], ps[k + 1..], path);
    }
  }

  lemma {:induction false} IndexOfPathAppend(a: seq<Plugin>, b: seq<Plugin>, path: string)
    requires forall i :: 0 <= i < |a| ==> a[i].path != path
    ensures IndexOfPath(a + b, path) == |a| + IndexOfPath(b, path)
  {
    if a == [] {
      assert a + b == b;
    } else {
      assert (a + b)[1..] == a[1..] + b;
      IndexOfPathAppend(a[1..], b, path);
    }
  }

  class Plugins {
    /** The current culture's string comparer, used by Array.Sort. */
    const order: (string, string) -> bool
    /** PluginOutputPath, fixed by SetupDirectories. */
    const pluginOutputPath: string
    var registered: seq<Plugin>
    /** Number of TriggerRebuild calls made so far. */
    var rebuildRequests: nat
    /** The records passed to UnloadPlugin so far, in call order. */
    var unloadRequests: seq<Plugin>
    /** The records passed to GenerateProject so far, in call order. */
    var generatedProjects: seq<Plugin>

    ghost predicate Valid() {
      StrictTotalOrder(order)
    }

    /** The most recently registered record. */
    function Newest(): Plugin
      reads this
      requires registered != []
    {
      registered[|registered| - 1]
    }

    constructor (order: (string, string) -> bool, pluginOutputPath: string)
      requires StrictTotalOrder(order)
      ensures Valid()
      ensures this.order == order && this.pluginOutputPath == pluginOutputPath
      ensures registered == [] && rebuildRequests == 0
      ensures unloadRequests == [] && generatedProjects == []
    {
      this.order := order;
      this.pluginOutputPath := pluginOutputPath;
      registered := [];
      rebuildRequests := 0;
      unloadRequests := [];
      generatedProjects := [];
    }

    /**
     * RegisterPlugin(path): `descriptor` is the first read of plugin.json,
     * `reread` the one LoadPlugin makes, `sources` the enumerated .cs files.
     * The new record is appended whatever is already registered.
     */
    method RegisterPlugin(path: string, descriptor: Option<PluginInfo>, sources: seq<string>,
                          reread: Option<PluginInfo>, projectFileExists: bool)
      requires Valid()
      modifies this
      ensures |registered| == |old(registered)| + 1
      ensures registered[..|old(registered)|] == old(registered)
      ensures CountPath(registered, path) == CountPath(old(registered), path) + 1
      ensures fresh(Newest()) && Newest().path == path && Newest().sourceFiles == sources
      ensures Newest().configPath == Paths.Combine(path, "plugin.json")
      ensures Newest().buildOutputPath == Paths.Combine(pluginOutputPath, Paths.FileName(path))
      ensures Newest().instance.None?
      ensures descriptor.None? ==>
        && Newest().info.None? && !Newest().requiresRebuild
        && rebuildRequests == old(rebuildRequests) && generatedProjects == old(generatedProjects)
      ensures descriptor.Some? && reread.None? ==>
        && Newest().info == GetPluginInfo(descriptor, order) && !Newest().requiresRebuild
        && rebuildRequests == old(rebuildRequests) && generatedProjects == old(generatedProjects)
      ensures descriptor.Some? && reread.Some? ==>
        && Newest().info == GetPluginInfo(reread, order) && Newest().requiresRebuild
        && rebuildRequests == old(rebuildRequests) + 1
        && generatedProjects == old(generatedProjects) + (if projectFileExists then [] else [Newest()])
      ensures unloadRequests == old(unloadRequests)
    {
      var jsonFile := Paths.Combine(path, "plugin.json");
      var pluginInfo := GetPluginInfo(descriptor, order);
      var pathName := Paths.FileName(path);
      var plugin := new Plugin(pluginInfo, path, jsonFile,
                               Paths.Combine(pluginOutputPath, pathName), sources);
      CountPathAppend(registered, [plugin], path);
      registered := registered + [plugin];
      assert registered[..|old(registered)|] == old(registered);
      assert Newest() == plugin;
      if plugin.info.Some? {
        LoadPlugin(plugin, reread, projectFileExists);
        assert Newest() == plugin;
      } else {
        assert descriptor.None?;
      }
    }

    /**
     * LoadPlugin: re-reads the descriptor; a failed read changes nothing,
     * otherwise the metadata is replaced, a missing project file is
     * generated and a rebuild is requested.
     */
    method LoadPlugin(plugin: Plugin, reread: Option<PluginInfo>, projectFileExists: bool)
      requires Valid()
      modifies this, plugin
      ensures registered == old(registered) && unloadRequests == old(unloadRequests)
      ensures plugin.sourceFiles == old(plugin.sourceFiles) && plugin.instance == old(plugin.instance)
      ensures reread.None? ==>
        && plugin.info == old(plugin.info)
        && plugin.requiresRebuild == old(plugin.requiresRebuild)
        && rebuildRequests == old(rebuildRequests)
        && generatedProjects == old(generatedProjects)
      ensures reread.Some? ==>
        && plugin.info == GetPluginInfo(reread, order)
        && plugin.requiresRebuild
        && rebuildRequests == old(rebuildRequests) + 1
        && generatedProjects == old(generatedProjects) + (if projectFileExists then [] else [plugin])
    {
      var pluginInfo := GetPluginInfo(reread, order);
      if pluginInfo.None? {
        return;
      }
      plugin.info := pluginInfo;
      if !projectFileExists {
        generatedProjects := generatedProjects + [plugin];
      }
      plugin.requiresRebuild := true;
      rebuildRequests := rebuildRequests + 1;
    }

    /**
     * RemovePlugin: unloads the plugin, then deletes the first record
     * registered under its path.
     */
    method RemovePlugin(plugin: Plugin)
      modifies this
      ensures unloadRequests == old(unloadRequests) + [plugin]
      ensures registered == RemoveFirstPath(old(registered), plugin.path)
      ensures rebuildRequests == old(rebuildRequests) && generatedProjects == old(generatedProjects)
    {
      unloadRequests := unloadRequests + [plugin];
      var i := 0;
      while i < |registered|
        invariant 0 <= i <= |registered|
        invariant registered == old(registered)
        invariant forall j :: 0 <= j < i ==> registered[j].path != plugin.path
      {
        if registered[i].path == plugin.path {
          registered := registered[..i] + registered[i + 1..];
          return;
        }
        i := i + 1;
      }
    }

    /** FindPlugin: the first record registered under `path`, or null. */
    method FindPlugin(path: string) returns (p: Plugin?)
      ensures p == null <==> CountPath(registered, path) == 0
      ensures p != null ==>
        IndexOfPath(registered, path) < |registered| && p == registered[IndexOfPath(registered, path)]
      ensures p != null ==> forall i :: 0 <= i < |registered| && registered[i] != p ==>
        registered[i].path != path || IndexOfPath(registered, path) < i
    {
      CountPathZero(registered, path);
      var i := 0;
      while i < |registered|
        invariant 0 <= i <= |registered|
        invariant forall j :: 0 <= j < i ==> registered[j].path != path
      {
        if registered[i].path == path {
          return registered[i];
        }
        i := i + 1;
      }
      return null;
    }

    /**
     * RebuildOrUnloadPlugin: a record without sources is unloaded, any other
     * is marked dirty and a rebuild requested. The debug line on the unload
     * branch reads `plugin.Info.Name`, which fails when there is no metadata.
     */
    method RebuildOrUnloadPlugin(plugin: Plugin) returns (c: Completion)
      modifies this, plugin
      ensures registered == old(registered) && generatedProjects == old(generatedProjects)
      ensures plugin.info == old(plugin.info) && plugin.instance == old(plugin.instance)
      ensures plugin.sourceFiles == old(plugin.sourceFiles)
      ensures |plugin.sourceFiles| == 0 && plugin.info.None? ==>
        && c == NullReference
        && unloadRequests == old(unloadRequests)
        && plugin.requiresRebuild == old(plugin.requiresRebuild)
        && rebuildRequests == old(rebuildRequests)
      ensures |plugin.sourceFiles| == 0 && plugin.info.Some? ==>
        && c == Normal
        && unloadRequests == old(unloadRequests) + [plugin]
        && plugin.requiresRebuild == old(plugin.requiresRebuild)
        && rebuildRequests == old(rebuildRequests)
      ensures |plugin.sourceFiles| > 0 ==>
        && c == Normal
        && unloadRequests == old(unloadRequests)
        && plugin.requiresRebuild
        && rebuildRequests == old(rebuildRequests) + 1
    {
      if |plugin.sourceFiles| == 0 {
        if plugin.info.None? {
          return NullReference;
        }
        unloadRequests := unloadRequests + [plugin];
      } else {
        plugin.requiresRebuild := true;
        rebuildRequests := rebuildRequests + 1;
      }
      return Normal;
    }

    /** GetPluginInstances, past its wait for a running build. */
    function GetPluginInstances(): (r: seq<Instance>)
      reads this, registered
      ensures forall x :: x in r ==> x.isPlugin
    {
      LiveInstancesInOrder(registered);
      LiveInstances(registered)
    }
  }
}
