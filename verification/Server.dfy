/** The plugin manager and the MCP server over both tool stores. */
module Server {
  import opened Text
  import opened Wrappers
  import opened Collect
  import opened Discovery
  import opened ToolMeta
  import opened ToolRegistry
  import opened Gateway
  import opened Sorting

  class Manager {
    var plugins: map<string, Plugin>

    constructor ()
      ensures plugins == map[]
    {
      plugins := map[];
    }

    /** The plugins in map order, each once. */
    method List() returns (out: seq<Plugin>)
      ensures exists names :: IsOrder(names, plugins) && AreValues(names, plugins, out)
    {
      ghost var names: seq<string> := [];
      out := [];
      var pending := plugins.Keys;
      while pending != {}
        invariant pending <= plugins.Keys
        invariant forall n :: n in names <==> n in plugins && n !in pending
        invariant |names| + |pending| == |plugins|
        invariant AreValues(names, plugins, out)
        decreases |pending|
      {
        var n :| n in pending;
        pending := pending - {n};
        out := out + [plugins[n]];
        names := names + [n];
      }
      assert IsOrder(names, plugins);
    }

    /** Replaces the plugins by what the scan found, or changes nothing. */
    method Load(scan: Scan, reserved: set<string>) returns (r: Result<nat>)
      modifies this
      ensures r.Ok? <==> PluginsCanLoad(scan, reserved)
      ensures r.Ok? ==> plugins == PluginStore(scan) && r.value == |plugins|
      ensures r.Err? ==> plugins == old(plugins)
    {
      var next: map<string, Plugin> := map[];
      ghost var names := PluginNames(scan);
      for i := 0 to |scan.loaded|
        invariant plugins == old(plugins)
        invariant AreNew(names[..i], reserved)
        invariant next == Fold(names[..i], scan.loaded[..i], map[])
      {
        var p := scan.loaded[i];
        FoldTurn(names, scan.loaded, i, reserved);
        if p.name in next {
          return Err;
        }
        if p.name in reserved {
          return Err;
        }
        next := next[p.name := p];
      }
      assert names[..|names|] == names && scan.loaded[..|names|] == scan.loaded;
      if |next| == 0 && scan.errors > 0 {
        FoldAdds(names, scan.loaded, map[]);
        return Err;
      }
      FoldAdds(names, scan.loaded, map[]);
      plugins := next;
      return Ok(|next|);
    }

    method Get(name: string) returns (p: Option<Plugin>)
      ensures p == if name in plugins then Some(plugins[name]) else None
    {
      p := if name in plugins then Some(plugins[name]) else None;
    }
  }

  datatype Entry = Entry(name: string, description: string)

  /** Who answers a call of this name. Plugins are looked up first. */
  datatype Target = PluginTarget(p: Plugin) | ToolTarget(t: ToolMeta) | NoTarget

  function TargetOf(s: State, name: string): Target
  {
    if name in s.plugins then PluginTarget(s.plugins[name])
    else if name in s.tools then ToolTarget(s.tools[name])
    else NoTarget
  }

  function PluginEntry(p: Plugin): Entry
  {
    Entry(p.name, p.description)
  }

  function ToolEntry(t: ToolMeta): Entry
  {
    Entry(t.name, t.description)
  }

  method Entries(ps: seq<Plugin>, ts: seq<ToolMeta>) returns (list: seq<Entry>)
    ensures AreEntries(ps, ts, list)
  {
    list := [];
    for i := 0 to |ps|
      invariant |list| == i && forall j | 0 <= j < i :: list[j] == PluginEntry(ps[j])
    {
      list := list + [Entry(ps[i].name, ps[i].description)];
    }
    for i := 0 to |ts|
      invariant |list| == |ps| + i
      invariant forall j | 0 <= j < |ps| :: list[j] == PluginEntry(ps[j])
      invariant forall j | 0 <= j < i :: list[|ps| + j] == ToolEntry(ts[j])
    {
      list := list + [Entry(ts[i].name, ts[i].description)];
    }
  }

  /** The listing: plugins in some order, then tools by name. */
  ghost predicate IsListing(s: State, plugins: seq<string>, tools: seq<string>, list: seq<Entry>)
  {
    && IsOrder(plugins, s.plugins)
    && IsOrder(tools, s.tools) && IsSorted(tools)
    && |list| == |plugins| + |tools|
    && (forall i | 0 <= i < |plugins| :: plugins[i] in s.plugins && list[i] == PluginEntry(s.plugins[plugins[i]]))
    && (forall i | 0 <= i < |tools| :: tools[i] in s.tools && list[|plugins| + i] == ToolEntry(s.tools[tools[i]]))
  }

  /** The entries of a list of plugins, then of a list of tools. */
  ghost predicate AreEntries(ps: seq<Plugin>, ts: seq<ToolMeta>, list: seq<Entry>)
  {
    && |list| == |ps| + |ts|
    && (forall i | 0 <= i < |ps| :: list[i] == PluginEntry(ps[i]))
    && forall i | 0 <= i < |ts| :: list[|ps| + i] == ToolEntry(ts[i])
  }

  lemma EntriesAreListing(s: State, plugins: seq<string>, tools: seq<string>,
                          ps: seq<Plugin>, ts: seq<ToolMeta>, list: seq<Entry>)
    requires IsOrder(plugins, s.plugins) && AreValues(plugins, s.plugins, ps)
    requires IsOrder(tools, s.tools) && AreValues(tools, s.tools, ts) && IsSorted(tools)
    requires AreEntries(ps, ts, list)
    ensures IsListing(s, plugins, tools, list)
  {
  }

  /** Both stores are keyed by the names of what they hold. */
  ghost predicate IsKeyed(s: State)
  {
    (forall n | n in s.plugins :: s.plugins[n].name == n) && forall n | n in s.tools :: s.tools[n].name == n
  }

  /** The entries carry the names they are stored under. */
  lemma ListedKeys(s: State, plugins: seq<string>, tools: seq<string>, list: seq<Entry>)
    requires IsKeyed(s) && IsListing(s, plugins, tools, list)
    ensures forall i | 0 <= i < |plugins| :: list[i] == Entry(plugins[i], s.plugins[plugins[i]].description)
    ensures forall i | 0 <= i < |tools| :: list[|plugins| + i] == Entry(tools[i], s.tools[tools[i]].description)
  {
  }

  /** In a safe state the entries carry the names they are stored under. */
  lemma ListedNames(s: State, plugins: seq<string>, tools: seq<string>, list: seq<Entry>)
    requires IsSafe(s) && IsListing(s, plugins, tools, list)
    ensures forall i | 0 <= i < |list| :: list[i].name == (plugins + tools)[i]
    ensures forall i, j | 0 <= i < j < |list| :: (plugins + tools)[i] != (plugins + tools)[j]
  {
    NoRepeats(plugins, s.plugins.Keys);
    NoRepeats(tools, s.tools.Keys);
    ListedKeys(s, plugins, tools, list);
    forall i | 0 <= i < |list| ensures list[i].name == (plugins + tools)[i] {
      if i >= |plugins| {
        assert list[|plugins| + (i - |plugins|)].name == tools[i - |plugins|];
      }
    }
  }

  /**
   * In a safe state the listing repeats no name, names exactly the plugins and the tools, and every listed
   * name is answered by the store that listed it.
   */
  lemma ListingAgreesWithDispatch(s: State, plugins: seq<string>, tools: seq<string>, list: seq<Entry>)
    requires IsSafe(s) && IsListing(s, plugins, tools, list)
    ensures forall i, j | 0 <= i < j < |list| :: list[i].name != list[j].name
    ensures forall i | 0 <= i < |plugins| :: TargetOf(s, list[i].name) == PluginTarget(s.plugins[plugins[i]])
    ensures forall i | 0 <= i < |tools| :: TargetOf(s, list[|plugins| + i].name) == ToolTarget(s.tools[tools[i]])
    ensures forall n :: TargetOf(s, n) == NoTarget <==> forall i | 0 <= i < |list| :: list[i].name != n
  {
    ListedNames(s, plugins, tools, list);
    forall n ensures TargetOf(s, n) == NoTarget <==> forall i | 0 <= i < |list| :: list[i].name != n {
      UnlistedMeansUnknown(s, plugins, tools, list, n);
    }
  }

  lemma UnlistedMeansUnknown(s: State, plugins: seq<string>, tools: seq<string>, list: seq<Entry>, n: string)
    requires IsSafe(s) && IsListing(s, plugins, tools, list)
    ensures TargetOf(s, n) == NoTarget <==> forall i | 0 <= i < |list| :: list[i].name != n
  {
    var all := plugins + tools;
    ListedNames(s, plugins, tools, list);
    assert n in all <==> n in s.plugins || n in s.tools;
    assert n in all <==> exists i | 0 <= i < |list| :: all[i] == n;
  }

  /** A name is listed once, by the store that answers it; a name that is not listed is answered by nobody. */
  ghost predicate Agrees(s: State, plugins: seq<string>, tools: seq<string>, list: seq<Entry>)
  {
    && |list| == |s.plugins| + |s.tools| == |plugins| + |tools|
    && (forall i, j | 0 <= i < j < |list| :: list[i].name != list[j].name)
    && (forall i | 0 <= i < |plugins| :: plugins[i] in s.plugins && TargetOf(s, list[i].name) == PluginTarget(s.plugins[plugins[i]]))
    && (forall i | 0 <= i < |tools| ::
          tools[i] in s.tools && TargetOf(s, list[|plugins| + i].name) == ToolTarget(s.tools[tools[i]]))
    && forall n :: TargetOf(s, n) == NoTarget <==> forall i | 0 <= i < |list| :: list[i].name != n
  }

  lemma SafeListingAgrees(s: State, plugins: seq<string>, tools: seq<string>, list: seq<Entry>)
    requires IsSafe(s) && IsListing(s, plugins, tools, list)
    ensures Agrees(s, plugins, tools, list)
  {
    ListingAgreesWithDispatch(s, plugins, tools, list);
  }

  /** In every state of every run with one load at a time, while a load is under way too. */
  lemma ExclusiveRunsAgree(xs: seq<System>, steps: seq<Step>, k: nat,
                           plugins: seq<string>, tools: seq<string>, list: seq<Entry>)
    requires IsRun(xs, steps) && IsExclusive(xs) && k < |xs|
    requires IsListing(xs[k].state, plugins, tools, list)
    ensures Agrees(xs[k].state, plugins, tools, list)
  {
    ExclusiveRunsStaySafe(xs, steps, k);
    SafeListingAgrees(xs[k].state, plugins, tools, list);
  }

  /** In every state that any mix of plugin loads, tool loads and reloads leads to, one after the other. */
  lemma ServedStatesAgree(e: Engine, jobs: seq<Job>, states: seq<State>, k: nat,
                          plugins: seq<string>, tools: seq<string>, list: seq<Entry>)
    requires AreDone(e, jobs, states) && k <= |jobs|
    requires IsListing(states[k], plugins, tools, list)
    ensures Agrees(states[k], plugins, tools, list)
  {
    JobsStaySafe(e, jobs, states, k);
    SafeListingAgrees(states[k], plugins, tools, list);
  }

  /** What a listing sees that reads the plugins in one state and the tools in a later one. */
  function Straddled(s: State, later: State): State
  {
    s.(tools := later.tools, byAPI := later.byAPI)
  }

  /**
   * The listing locks the stores one after the other, so loads may commit in between, even one at a time.
   * It repeats no name exactly when no tool it sees has the name of a plugin it saw.
   */
  lemma StraddledListingRepeatsExactly(xs: seq<System>, steps: seq<Step>, i: nat, j: nat,
                                       plugins: seq<string>, tools: seq<string>, list: seq<Entry>)
    requires IsRun(xs, steps) && IsExclusive(xs) && i <= j < |xs|
    requires IsListing(Straddled(xs[i].state, xs[j].state), plugins, tools, list)
    ensures (forall a, b | 0 <= a < b < |list| :: list[a].name != list[b].name)
       <==> forall n | n in xs[i].state.plugins :: n !in xs[j].state.tools
  {
    var s := Straddled(xs[i].state, xs[j].state);
    ExclusiveRunsStaySafe(xs, steps, i);
    ExclusiveRunsStaySafe(xs, steps, j);
    if n :| n in s.plugins && n in s.tools {
      SharedNameRepeats(s, plugins, tools, list, n);
    } else {
      ListedNames(s, plugins, tools, list);
    }
  }

  lemma SharedNameRepeats(s: State, plugins: seq<string>, tools: seq<string>, list: seq<Entry>, n: string)
    requires IsKeyed(s) && IsListing(s, plugins, tools, list) && n in s.plugins && n in s.tools
    ensures exists a, b :: 0 <= a < b < |list| && list[a].name == list[b].name
  {
    ListedKeys(s, plugins, tools, list);
    var a :| 0 <= a < |plugins| && plugins[a] == n;
    var b :| 0 <= b < |tools| && tools[b] == n;
    assert list[a].name == list[|plugins| + b].name;
  }

  /** A run with one load at a time in which a listing can repeat a name: it moves from a plugin to a tool. */
  lemma ListingCanRepeat(e: Engine, n: string) returns (xs: seq<System>, steps: seq<Step>, i: nat, j: nat)
    requires TrimSpace(n) != ""
    ensures IsRun(xs, steps) && IsExclusive(xs) && i <= j < |xs|
    ensures n in xs[i].state.plugins && n in xs[j].state.tools
  {
    var scan, states := NamesCanMove(e, n);
    var at;
    xs, steps, at := JobsAreExclusiveRuns(e, MovingJobs(n, scan), states);
    i, j := at[2], at[4];
  }

  class McpServer {
    const manager: Manager
    const registry: Registry
    var apis: seq<Service>

    ghost function Abstract(): State
      reads this, manager, registry
    {
      State(apis, manager.plugins, registry.tools, registry.byAPI)
    }

    constructor ()
      ensures Abstract() == EMPTY && fresh(manager) && fresh(registry)
    {
      manager := new Manager();
      registry := new Registry();
      apis := [];
    }

    /** The configuration part of a reload; `names` are the plugin names the registry asks for. */
    method ReloadTools(e: Engine, config: seq<Service>) returns (ok: bool)
      modifies this`apis, registry
      ensures ToolLoad(e, config, old(manager.plugins.Keys), old(Abstract()).(apis := config), Abstract(), ok)
    {
      ghost var before := Abstract();
      apis := config;
      var r;
      ghost var rds;
      r, rds := registry.Load(e, apis, manager.plugins.Keys);
      ok := r.Ok?;
      ToolLoadBy(e, config, rds, before.plugins.Keys, before.(apis := config), Abstract(), ok);
    }

    method ReloadPlugins(scan: Scan) returns (ok: bool)
      modifies manager
      ensures PluginLoad(scan, old(registry.tools.Keys), old(Abstract()), Abstract(), ok)
    {
      var r := manager.Load(scan, registry.tools.Keys);
      ok := r.Ok?;
    }

    /** The part of a reload after the configuration. */
    method ReloadRest(req: ReloadRequest, scan: Scan) returns (reply: Reply)
      modifies manager
      ensures PluginPart(req, scan, old(Abstract()), Abstract(), reply)
    {
      ghost var before := Abstract();
      if req.plugins || !req.config {
        var ok := ReloadPlugins(scan);
        reply := if ok then Reloaded(|manager.plugins|, |manager.plugins| + |registry.tools|) else PluginsFailed;
        PluginsLast(req, scan, before, Abstract(), ok);
      } else {
        reply := Reloaded(|manager.plugins|, |manager.plugins| + |registry.tools|);
        NoPlugins(req, scan, before);
      }
    }

    /** The requested loads in order, stopping at the first failure; `config` is None when it does not load. */
    method HandleReload(e: Engine, req: ReloadRequest, config: Option<seq<Service>>, scan: Scan) returns (reply: Reply)
      modifies this`apis, manager, registry
      ensures Reload(e, req, config, scan, old(Abstract()), Abstract(), reply)
    {
      ghost var before := Abstract();
      if req.config {
        if config.None? {
          return ConfigFailed;
        }
        var ok := ReloadTools(e, config.value);
        if !ok {
          ToolsFail(e, req, config.value, scan, before, Abstract());
          return ToolsFailed;
        }
      }
      ghost var mid := Abstract();
      reply := ReloadRest(req, scan);
      if req.config {
        ToolsThenPlugins(e, req, config.value, scan, before, mid, Abstract(), reply);
      }
    }

    method ToolsCount() returns (n: nat)
      ensures n == |manager.plugins| + |registry.tools|
    {
      n := |manager.plugins| + |registry.tools|;
    }

    /** tools/list: the plugins in map order, then the generated tools sorted by name. */
    method ToolsList() returns (list: seq<Entry>)
      ensures exists plugins, tools :: IsListing(Abstract(), plugins, tools, list)
      ensures |list| == |manager.plugins| + |registry.tools|
    {
      var ps := manager.List();
      var ts := registry.List();
      list := Entries(ps, ts);
      ghost var plugins :| IsOrder(plugins, manager.plugins) && AreValues(plugins, manager.plugins, ps);
      ghost var tools :| IsOrder(tools, registry.tools) && AreValues(tools, registry.tools, ts) && IsSorted(tools);
      EntriesAreListing(Abstract(), plugins, tools, ps, ts, list);
    }

    /** tools/call up to the store that executes the tool. */
    method Dispatch(name: string) returns (t: Target)
      ensures t == TargetOf(Abstract(), name)
      ensures name in manager.plugins ==> t == PluginTarget(manager.plugins[name])
      ensures name !in manager.plugins && name in registry.tools ==> t == ToolTarget(registry.tools[name])
      ensures name !in manager.plugins && name !in registry.tools ==> t == NoTarget
    {
      var p := manager.Get(name);
      if p.Some? {
        return PluginTarget(p.value);
      }
      var tool := registry.Get(name);
      if tool.Some? {
        return ToolTarget(tool.value);
      }
      return NoTarget;
    }
  }
}
