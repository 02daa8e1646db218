/**
 * The two tool stores of the server: plugins loaded from disk and tools generated from API documents.
 * Each load checks the names of the other store, as they were when the load began.
 */
module Gateway {
  import opened Text
  import opened Wrappers
  import opened Collect
  import opened Discovery
  import opened Documents
  import opened Json
  import opened ToolMeta
  import opened ToolRegistry

  datatype Plugin = Plugin(name: string, description: string)

  /** What a scan of the plugins directory found, and how many directories it could not load. */
  datatype Scan = Scan(loaded: seq<Plugin>, errors: nat)

  /** A scan of a directory: plugins with a blank name are among the ones that could not be loaded. */
  predicate IsRealScan(scan: Scan)
  {
    forall p | p in scan.loaded :: TrimSpace(p.name) != ""
  }

  // ---------- The states of the server ----------

  datatype State = State(
    apis: seq<Service>, plugins: map<string, Plugin>, tools: map<string, ToolMeta>, byAPI: map<string, nat>)

  const EMPTY := State([], map[], map[], map[])

  /** No plugin and tool share a name, and both stores are keyed by the names of what they hold. */
  ghost predicate IsSafe(s: State)
  {
    && (forall n | n in s.plugins :: n !in s.tools)
    && (forall n | n in s.plugins :: s.plugins[n].name == n)
    && (forall n | n in s.tools :: s.tools[n].name == n)
  }

  function PluginNames(scan: Scan): (names: seq<string>)
    ensures |names| == |scan.loaded|
  {
    seq(|scan.loaded|, i requires 0 <= i < |scan.loaded| => scan.loaded[i].name)
  }

  ghost predicate PluginsCanLoad(scan: Scan, reserved: set<string>)
  {
    AreNew(PluginNames(scan), reserved) && (scan.loaded == [] ==> scan.errors == 0)
  }

  function PluginStore(scan: Scan): map<string, Plugin>
  {
    Fold(PluginNames(scan), scan.loaded, map[])
  }

  /** A plugin load that saw `reserved` as the names of the other store. */
  ghost predicate PluginLoad(scan: Scan, reserved: set<string>, s: State, s': State, ok: bool)
  {
    && (ok <==> PluginsCanLoad(scan, reserved))
    && s' == if ok then s.(plugins := PluginStore(scan)) else s
  }

  /** A tool load that saw `apis` as the configuration and `reserved` as the names of the other store. */
  ghost predicate ToolLoad(e: Engine, apis: seq<Service>, reserved: set<string>, s: State, s': State, ok: bool)
  {
    exists rds ::
      && AreReadings(apis, rds)
      && (ok <==> CanLoad(e, apis, rds, reserved))
      && (if ok then s' == s.(tools := s'.tools, byAPI := s'.byAPI) && IsLoaded(e, apis, rds, s'.tools, s'.byAPI)
          else s' == s)
  }

  lemma ToolLoadBy(e: Engine, apis: seq<Service>, rds: seq<Reading>, reserved: set<string>, s: State, s': State, ok: bool)
    requires AreReadings(apis, rds) && (ok <==> CanLoad(e, apis, rds, reserved))
    requires if ok then s' == s.(tools := s'.tools, byAPI := s'.byAPI) && IsLoaded(e, apis, rds, s'.tools, s'.byAPI)
             else s' == s
    ensures ToolLoad(e, apis, reserved, s, s', ok)
  {
  }

  lemma StoredPlugins(scan: Scan, reserved: set<string>)
    requires PluginsCanLoad(scan, reserved)
    ensures forall n | n in PluginStore(scan) :: n !in reserved && PluginStore(scan)[n].name == n
    ensures forall p | p in scan.loaded :: p.name in PluginStore(scan) && PluginStore(scan)[p.name] == p
    ensures |PluginStore(scan)| == |scan.loaded|
  {
    var names := PluginNames(scan);
    FoldAdds(names, scan.loaded, map[]);
    forall n | n in PluginStore(scan) ensures n !in reserved && PluginStore(scan)[n].name == n {
      var i :| 0 <= i < |names| && names[i] == n;
    }
    forall p | p in scan.loaded ensures p.name in PluginStore(scan) && PluginStore(scan)[p.name] == p {
      var i :| 0 <= i < |scan.loaded| && scan.loaded[i] == p;
      assert names[i] == p.name;
    }
  }

  /** A successful tool load leaves tools under their own names, none of them reserved, all bound to a service. */
  lemma LoadedTools(e: Engine, apis: seq<Service>, reserved: set<string>, s: State, s': State)
    requires ToolLoad(e, apis, reserved, s, s', true)
    ensures forall n | n in s'.tools :: n !in reserved && s'.tools[n].name == n
    ensures forall n | n in s'.tools :: exists i | 0 <= i < |apis| :: apis[i].name == s'.tools[n].apiName
  {
    var rds :| AreReadings(apis, rds) && CanLoad(e, apis, rds, reserved)
               && s' == s.(tools := s'.tools, byAPI := s'.byAPI) && IsLoaded(e, apis, rds, s'.tools, s'.byAPI);
    LoadedToolsAreExposed(e, apis, rds, reserved, s'.tools, s'.byAPI);
  }

  // ---------- Loads that overlap ----------

  /** A load between its snapshot of the other store and its commit. */
  datatype Pending = PluginsPending(reserved: set<string>) | ToolsPending(apis: seq<Service>, reserved: set<string>)

  /** The server with the loads under way, one for each request thread. */
  datatype System = System(state: State, pending: map<nat, Pending>)

  /** A commit carries what the load built, or None when it failed. */
  datatype Step =
    | BeginPlugins(t: nat)
    | BeginTools(t: nat)
    | CommitPlugins(t: nat, plugins: Option<map<string, Plugin>>)
    | CommitTools(t: nat, tools: Option<(map<string, ToolMeta>, map<string, nat>)>)
    | Configure(apis: seq<Service>)

  ghost predicate PluginsAvoid(plugins: map<string, Plugin>, reserved: set<string>)
  {
    forall n | n in plugins :: n !in reserved && plugins[n].name == n
  }

  ghost predicate ToolsAvoid(tools: map<string, ToolMeta>, reserved: set<string>)
  {
    forall n | n in tools :: n !in reserved && tools[n].name == n
  }

  /** All that a commit is known by here is that it avoids its snapshot: real loads do (RealLoadsAreCommits). */
  ghost predicate Next(x: System, step: Step, x': System)
  {
    match step
    case BeginPlugins(t) =>
      t !in x.pending && x' == x.(pending := x.pending[t := PluginsPending(x.state.tools.Keys)])
    case BeginTools(t) =>
      t !in x.pending && x' == x.(pending := x.pending[t := ToolsPending(x.state.apis, x.state.plugins.Keys)])
    case CommitPlugins(t, None) =>
      t in x.pending && x.pending[t].PluginsPending? && x' == x.(pending := x.pending - {t})
    case CommitPlugins(t, Some(plugins)) =>
      && t in x.pending && x.pending[t].PluginsPending? && PluginsAvoid(plugins, x.pending[t].reserved)
      && x' == System(x.state.(plugins := plugins), x.pending - {t})
    case CommitTools(t, None) =>
      t in x.pending && x.pending[t].ToolsPending? && x' == x.(pending := x.pending - {t})
    case CommitTools(t, Some((tools, byAPI))) =>
      && t in x.pending && x.pending[t].ToolsPending? && ToolsAvoid(tools, x.pending[t].reserved)
      && x' == System(x.state.(tools := tools, byAPI := byAPI), x.pending - {t})
    case Configure(apis) =>
      x' == x.(state := x.state.(apis := apis))
  }

  /** A plugin or tool load that commits the snapshot it began with is a commit step. */
  lemma RealLoadsAreCommits(e: Engine, x: System, t: nat, scan: Scan, s': State, ok: bool)
    requires t in x.pending
    ensures x.pending[t].PluginsPending? && PluginLoad(scan, x.pending[t].reserved, x.state, s', ok) ==>
              Next(x, CommitPlugins(t, if ok then Some(s'.plugins) else None), System(s', x.pending - {t}))
    ensures x.pending[t].ToolsPending? && ToolLoad(e, x.pending[t].apis, x.pending[t].reserved, x.state, s', ok) ==>
              Next(x, CommitTools(t, if ok then Some((s'.tools, s'.byAPI)) else None), System(s', x.pending - {t}))
  {
    if x.pending[t].PluginsPending? && PluginLoad(scan, x.pending[t].reserved, x.state, s', ok) && ok {
      StoredPlugins(scan, x.pending[t].reserved);
    }
    if x.pending[t].ToolsPending? && ToolLoad(e, x.pending[t].apis, x.pending[t].reserved, x.state, s', ok) {
      ToolLoadFrame(e, x.pending[t].apis, x.pending[t].reserved, x.state, s', ok);
    }
  }

  lemma ToolLoadFrame(e: Engine, apis: seq<Service>, reserved: set<string>, s: State, s': State, ok: bool)
    requires ToolLoad(e, apis, reserved, s, s', ok)
    ensures s' == if ok then s.(tools := s'.tools, byAPI := s'.byAPI) else s
    ensures ok ==> ToolsAvoid(s'.tools, reserved)
  {
    if ok {
      LoadedTools(e, apis, reserved, s, s');
    }
  }

  /** The names of the other store that appeared since the committing load took its snapshot. */
  ghost function Missed(x: System, step: Step): set<string>
  {
    match step
    case CommitPlugins(t, _) => if t in x.pending then x.state.tools.Keys - x.pending[t].reserved else {}
    case CommitTools(t, _) => if t in x.pending then x.state.plugins.Keys - x.pending[t].reserved else {}
    case _ => {}
  }

  /** The names the step adds to its own store. */
  ghost function Added(x: System, step: Step): set<string>
  {
    match step
    case CommitPlugins(_, Some(plugins)) => plugins.Keys - x.state.plugins.Keys
    case CommitTools(_, Some((tools, _))) => tools.Keys - x.state.tools.Keys
    case _ => {}
  }

  /** A step from a safe state ends in one exactly when it adds no name that it missed. */
  lemma StepIsSafeExactly(x: System, step: Step, x': System)
    requires IsSafe(x.state) && Next(x, step, x')
    ensures IsSafe(x'.state) <==> forall n | n in Added(x, step) :: n !in Missed(x, step)
  {
    if step.CommitPlugins? || step.CommitTools? {
      assert forall n | n in x'.state.plugins && n in x'.state.tools :: n in Missed(x, step) && n in Added(x, step);
    }
  }

  /**
   * Before the commit: whatever a pending plugin load has built, committing it is safe exactly when every
   * tool was already there at its snapshot. Real loads bring no plugin with a blank name, so over these a
   * tool of such a name is in nobody's way.
   */
  lemma PluginCommitsAreSafeExactly(x: System, t: nat)
    requires IsSafe(x.state) && t in x.pending && x.pending[t].PluginsPending?
    ensures (forall ps, x' | Next(x, CommitPlugins(t, Some(ps)), x') :: IsSafe(x'.state))
       <==> x.state.tools.Keys <= x.pending[t].reserved
    ensures (forall scan, s' | IsRealScan(scan) && PluginLoad(scan, x.pending[t].reserved, x.state, s', true) :: IsSafe(s'))
       <==> forall n | n in x.state.tools && TrimSpace(n) != "" :: n in x.pending[t].reserved
  {
    var reserved := x.pending[t].reserved;
    if n :| n in x.state.tools && n !in reserved {
      var scan, s' := OnePluginLoads(n, reserved, x.state);
      assert n in s'.plugins && n in s'.tools;
      assert Next(x, CommitPlugins(t, Some(s'.plugins)), System(s', x.pending - {t}));
    }
    RealPluginCommits(x.state, reserved);
  }

  lemma RealPluginCommits(s: State, reserved: set<string>)
    requires IsSafe(s)
    ensures (forall scan, s' | IsRealScan(scan) && PluginLoad(scan, reserved, s, s', true) :: IsSafe(s'))
       <==> forall n | n in s.tools && TrimSpace(n) != "" :: n in reserved
  {
    if n :| n in s.tools && TrimSpace(n) != "" && n !in reserved {
      var scan, s' := OnePluginLoads(n, reserved, s);
      assert n in s'.plugins && n in s'.tools;
      assert !IsSafe(s');
    } else {
      forall scan, s' | IsRealScan(scan) && PluginLoad(scan, reserved, s, s', true) ensures IsSafe(s') {
        StoredPlugins(scan, reserved);
        StoredNamesAreScanned(scan, reserved);
      }
    }
  }

  lemma StoredNamesAreScanned(scan: Scan, reserved: set<string>)
    requires PluginsCanLoad(scan, reserved)
    ensures forall n | n in PluginStore(scan) :: exists p :: p in scan.loaded && p.name == n
  {
    var names := PluginNames(scan);
    forall n | n in PluginStore(scan) ensures exists p :: p in scan.loaded && p.name == n {
      FoldHas(names, scan.loaded, map[], n);
      var i :| 0 <= i < |names| && names[i] == n;
      assert scan.loaded[i] in scan.loaded;
    }
  }

  /** A scan that finds one plugin with a free name loads. */
  lemma OnePluginLoads(n: string, reserved: set<string>, s: State) returns (scan: Scan, s': State)
    requires n !in reserved
    ensures PluginLoad(scan, reserved, s, s', true) && s' == s.(plugins := s'.plugins)
    ensures n in s'.plugins && PluginsAvoid(s'.plugins, reserved)
    ensures IsRealScan(scan) <==> TrimSpace(n) != ""
  {
    scan := Scan([Plugin(n, "a plugin")], 0);
    s' := s.(plugins := PluginStore(scan));
    StoredPlugins(scan, reserved);
    assert scan.loaded[0] in scan.loaded;
  }

  /** The name of a tool ends with an operationId, so it is not empty. */
  lemma NoToolIsNameless(e: Engine, apis: seq<Service>, reserved: set<string>, s: State, s': State)
    requires ToolLoad(e, apis, reserved, s, s', true)
    ensures "" !in s'.tools
  {
    var rds :| AreReadings(apis, rds) && CanLoad(e, apis, rds, reserved)
               && s' == s.(tools := s'.tools, byAPI := s'.byAPI) && IsLoaded(e, apis, rds, s'.tools, s'.byAPI);
    if "" in s'.tools {
      var i, slot := ToolComesFrom(e, apis, rds, s'.tools, s'.byAPI, "");
      assert IsServiceReading(apis[i], rds[i]);
      ReadsOwnID(apis[i].name, apis[i].decoded.value, rds[i], slot);
    }
  }

  /** A tool built by no document, for a commit. */
  function AnyTool(n: string): ToolMeta
  {
    ToolMeta(n, "", map[], [], "", "GET", "/", map[], NoBody, false, {})
  }

  /**
   * The same for a pending tool load, over any commits and over real loads of any configuration. Real loads
   * build no tool with an empty name, so a plugin of that name is in nobody's way.
   */
  lemma ToolCommitsAreSafeExactly(e: Engine, x: System, t: nat)
    requires IsSafe(x.state) && t in x.pending && x.pending[t].ToolsPending?
    ensures (forall ts, counts, x' | Next(x, CommitTools(t, Some((ts, counts))), x') :: IsSafe(x'.state))
       <==> x.state.plugins.Keys <= x.pending[t].reserved
    ensures (forall apis, s' | ToolLoad(e, apis, x.pending[t].reserved, x.state, s', true) :: IsSafe(s'))
       <==> x.state.plugins.Keys - {""} <= x.pending[t].reserved
  {
    if n :| n in x.state.plugins && n !in x.pending[t].reserved {
      ClashingCommit(x, t, n);
    }
    RealToolCommits(e, x.state, x.pending[t].reserved);
  }

  lemma ClashingCommit(x: System, t: nat, n: string)
    requires t in x.pending && x.pending[t].ToolsPending? && n in x.state.plugins && n !in x.pending[t].reserved
    ensures exists ts, counts, x' :: Next(x, CommitTools(t, Some((ts, counts))), x') && !IsSafe(x'.state)
  {
    var tools := map[n := AnyTool(n)];
    var x' := System(x.state.(tools := tools, byAPI := map[]), x.pending - {t});
    assert Next(x, CommitTools(t, Some((tools, map[]))), x');
    assert n in x'.state.plugins && n in x'.state.tools;
  }

  lemma RealToolCommits(e: Engine, s: State, reserved: set<string>)
    requires IsSafe(s)
    ensures (forall apis, s' | ToolLoad(e, apis, reserved, s, s', true) :: IsSafe(s'))
       <==> s.plugins.Keys - {""} <= reserved
  {
    if n :| n in s.plugins && n != "" && n !in reserved {
      var apis, s' := ClashingToolLoad(e, s, reserved, n);
    } else {
      forall apis, s' | ToolLoad(e, apis, reserved, s, s', true) ensures IsSafe(s') {
        NoToolIsNameless(e, apis, reserved, s, s');
        LoadedTools(e, apis, reserved, s, s');
      }
    }
  }

  /** A real load that brings a tool of the name of an unseen plugin. */
  lemma ClashingToolLoad(e: Engine, s: State, reserved: set<string>, n: string) returns (apis: seq<Service>, s': State)
    requires n in s.plugins && n != "" && n !in reserved
    ensures ToolLoad(e, apis, reserved, s, s', true) && !IsSafe(s')
  {
    apis := [OneToolService(n)];
    s' := OneToolLoads(e, n, reserved, s);
    assert n in s'.plugins && n in s'.tools;
  }

  /** Step after step: one state more than steps. */
  ghost predicate IsPath(xs: seq<System>, steps: seq<Step>)
  {
    && |xs| == |steps| + 1
    && forall i {:trigger steps[i]} | 0 <= i < |steps| :: Next(xs[i], steps[i], xs[i + 1])
  }

  /** A run of the system, from the start. */
  ghost predicate IsRun(xs: seq<System>, steps: seq<Step>)
  {
    IsPath(xs, steps) && xs[0] == System(EMPTY, map[])
  }

  /** No commit misses a name: the other store has not grown since the snapshot. */
  ghost predicate MissesNothing(xs: seq<System>, steps: seq<Step>)
    requires |xs| == |steps| + 1
  {
    forall i | 0 <= i < |steps| :: Missed(xs[i], steps[i]) == {}
  }

  /** Over every run whose commits miss nothing, the names stay disjoint in every state. */
  lemma {:induction false} RunsStaySafe(xs: seq<System>, steps: seq<Step>, k: nat)
    requires IsRun(xs, steps) && MissesNothing(xs, steps) && k < |xs|
    ensures IsSafe(xs[k].state)
  {
    if k > 0 {
      RunsStaySafe(xs, steps, k - 1);
      StepIsSafeExactly(xs[k - 1], steps[k - 1], xs[k]);
    }
  }

  /** At most one load is under way. */
  ghost predicate IsAlone(x: System)
  {
    forall t, u | t in x.pending && u in x.pending :: t == u
  }

  /** In every state at most one load is under way. */
  ghost predicate IsExclusive(xs: seq<System>)
  {
    forall i | 0 <= i < |xs| :: IsAlone(xs[i])
  }

  /** A pending load that is alone still sees the names of the other store. */
  ghost predicate SnapshotsAreCurrent(x: System)
  {
    forall t | t in x.pending ::
      x.pending[t].reserved == if x.pending[t].PluginsPending? then x.state.tools.Keys else x.state.plugins.Keys
  }

  lemma StepKeepsSnapshots(x: System, step: Step, x': System)
    requires SnapshotsAreCurrent(x) && IsAlone(x) && IsAlone(x')
    requires Next(x, step, x')
    ensures SnapshotsAreCurrent(x')
  {
    match step {
      case BeginPlugins(t) => assert t in x'.pending;
      case BeginTools(t) => assert t in x'.pending;
      case _ =>
    }
  }

  lemma {:induction false} ExclusiveSnapshots(xs: seq<System>, steps: seq<Step>, k: nat)
    requires IsRun(xs, steps) && IsExclusive(xs) && k < |xs|
    ensures SnapshotsAreCurrent(xs[k])
  {
    if k > 0 {
      ExclusiveSnapshots(xs, steps, k - 1);
      StepKeepsSnapshots(xs[k - 1], steps[k - 1], xs[k]);
    }
  }

  /** One load at a time, as when a lock is held over the whole load, keeps every state safe. */
  lemma ExclusiveRunsStaySafe(xs: seq<System>, steps: seq<Step>, k: nat)
    requires IsRun(xs, steps) && IsExclusive(xs) && k < |xs|
    ensures IsSafe(xs[k].state)
  {
    forall i | 0 <= i < |steps| ensures Missed(xs[i], steps[i]) == {} {
      ExclusiveSnapshots(xs, steps, i);
      assert Next(xs[i], steps[i], xs[i + 1]);
    }
    RunsStaySafe(xs, steps, k);
  }

  // ---------- Two loads that clash ----------

  /** A document with one operation. */
  function OneOperation(id: string): Document
  {
    Document("3.0.3", map["/ping" := PathItem([], map["GET" := RawOperation(id, [], "", "", [], None)])], map[])
  }

  function OneToolService(id: string): Service
  {
    Service("s", "", Some(OneOperation(id)), APIDiscovery([], []))
  }

  const PING_SERVICE := OneToolService("ping")

  lemma OneSlot(id: string)
    requires id != ""
    ensures forall t :: HasSlot(OneOperation(id), t) <==> t == Slot("/ping", "GET")
  {
    assert HTTP_METHODS[0] == "GET";
    assert forall t | HasSlot(OneOperation(id), t) :: t.path == "/ping" && t.method_ == "GET";
  }

  lemma OneToolIsExposed(e: Engine, id: string, rd: Reading)
    requires id != "" && IsServiceReading(OneToolService(id), rd)
    ensures ServiceCanLoad(e, OneToolService(id), rd, {})
    ensures ToolNames(e, OneToolService(id), rd) == {id}
  {
    var svc, doc, slot := OneToolService(id), OneOperation(id), Slot("/ping", "GET");
    OneSlot(id);
    assert LoadDoc(svc.decoded) == Ok(doc);
    assert slot in rd && IsOperationOf("s", doc, slot, rd[slot]);
    var picked :| CanPickFor(RawAt(doc, slot), picked) && rd[slot] == OperationWith("s", doc, slot, picked);
    assert Exposes(e, svc.discovery, CandidateOf(rd[slot]));
    assert Exposed(e, svc, rd) == {slot};
    assert ToolName(svc, rd[slot]) == id;
  }

  /** The one tool loads beside any names but its own. */
  lemma OneToolLoads(e: Engine, id: string, reserved: set<string>, s: State) returns (s': State)
    requires id != "" && id !in reserved
    ensures ToolLoad(e, [OneToolService(id)], reserved, s, s', true)
    ensures id in s'.tools && s' == s.(tools := s'.tools, byAPI := s'.byAPI)
    ensures forall n | n in s'.tools :: s'.tools[n].apiName == "s"
  {
    var svc := OneToolService(id);
    var rd := SomeReading(svc);
    OneToolIsExposed(e, id, rd);
    s' := SingleLoad(e, svc, rd, reserved, s);
    LoadedTools(e, [svc], reserved, s, s');
  }

  /** A single service that can load, loads: its tools become the store. */
  lemma SingleLoad(e: Engine, svc: Service, rd: Reading, reserved: set<string>, s: State) returns (s': State)
    requires IsServiceReading(svc, rd) && ServiceCanLoad(e, svc, rd, reserved)
    ensures ToolLoad(e, [svc], reserved, s, s', true)
    ensures s'.tools == ServiceTools(e, svc, rd) && s' == s.(tools := s'.tools, byAPI := s'.byAPI)
  {
    var m := ServiceTools(e, svc, rd);
    SingleLoaded(e, svc, rd, reserved);
    s' := s.(tools := m, byAPI := map[svc.name := |m|]);
    ToolLoadBy(e, [svc], [rd], reserved, s, s', true);
  }

  lemma SingleLoaded(e: Engine, svc: Service, rd: Reading, reserved: set<string>)
    requires IsServiceReading(svc, rd) && ServiceCanLoad(e, svc, rd, reserved)
    ensures AreReadings([svc], [rd]) && CanLoad(e, [svc], [rd], reserved)
    ensures var m := ServiceTools(e, svc, rd); IsLoaded(e, [svc], [rd], m, map[svc.name := |m|])
  {
    var m := ServiceTools(e, svc, rd);
    OneMoreCanLoad(e, [], [], reserved, svc, rd);
    LoadExtends(e, [], [], map[], map[], svc, rd);
    assert [] + [svc] == [svc] && [] + [rd] == [rd];
    EmptyUnion(m);
  }

  lemma PingPlugin() returns (scan: Scan)
    ensures IsRealScan(scan) && PluginsCanLoad(scan, {}) && "ping" in PluginStore(scan)
    ensures scan.loaded == [Plugin("ping", "a plugin")]
  {
    scan := Scan([Plugin("ping", "a plugin")], 0);
    TrimNoop("ping", IsSpace);
    StoredPlugins(scan, {});
    assert scan.loaded[0] in scan.loaded;
  }

  /**
   * Overlapping loads can end in a clash: both snapshots are taken before either commit, so neither load
   * sees the name the other one brings. Both commits are loads the code performs.
   */
  lemma OverlappingLoadsClash(e: Engine) returns (scan: Scan, xs: seq<System>, steps: seq<Step>)
    ensures IsRun(xs, steps) && |steps| == 5
    ensures IsRealScan(scan) && PluginLoad(scan, {}, xs[3].state, xs[4].state, true)
    ensures ToolLoad(e, [PING_SERVICE], {}, xs[4].state, xs[5].state, true)
    ensures !IsSafe(xs[5].state)
  {
    scan := PingPlugin();
    var configured := EMPTY.(apis := [PING_SERVICE]);
    var plugged := configured.(plugins := PluginStore(scan));
    var clashed := OneToolLoads(e, "ping", {}, plugged);
    ToolLoadFrame(e, [PING_SERVICE], {}, plugged, clashed, true);
    StoredPlugins(scan, {});
    xs, steps := ClashRun([PING_SERVICE], plugged, clashed, configured);
    assert "ping" in clashed.plugins && "ping" in clashed.tools;
  }

  lemma ClashRun(apis: seq<Service>, plugged: State, clashed: State, configured: State)
    returns (xs: seq<System>, steps: seq<Step>)
    requires configured == EMPTY.(apis := apis)
    requires plugged == configured.(plugins := plugged.plugins) && PluginsAvoid(plugged.plugins, {})
    requires clashed == plugged.(tools := clashed.tools, byAPI := clashed.byAPI) && ToolsAvoid(clashed.tools, {})
    ensures IsRun(xs, steps) && |steps| == 5 && |xs| == 6
    ensures xs[3].state == configured && xs[4].state == plugged && xs[5].state == clashed
  {
    var one := map[0 := PluginsPending({})];
    var both := map[0 := PluginsPending({}), 1 := ToolsPending(apis, {})];
    xs := [System(EMPTY, map[]), System(configured, map[]), System(configured, one),
           System(configured, both), System(plugged, both - {0}), System(clashed, both - {0} - {1})];
    steps := [Configure(apis), BeginPlugins(0), BeginTools(1), CommitPlugins(0, Some(plugged.plugins)),
              CommitTools(1, Some((clashed.tools, clashed.byAPI)))];
    assert both == one[1 := ToolsPending(apis, {})];
    assert EMPTY.plugins.Keys == {} && EMPTY.tools.Keys == {};
    assert Next(xs[0], steps[0], xs[1]);
    assert Next(xs[1], steps[1], xs[2]);
    assert Next(xs[2], steps[2], xs[3]);
    assert Next(xs[3], steps[3], xs[4]);
    assert Next(xs[4], steps[4], xs[5]);
  }

  // ---------- Reload requests, one at a time ----------

  datatype ReloadRequest = ReloadRequest(plugins: bool, config: bool)

  datatype Reply = ConfigFailed | ToolsFailed | PluginsFailed | Reloaded(pluginCount: nat, toolsCount: nat)

  /** The part of a reload after the configuration: plugins, unless only the configuration was asked for. */
  ghost predicate PluginPart(req: ReloadRequest, scan: Scan, s: State, s': State, reply: Reply)
  {
    if req.plugins || !req.config then
      exists ok ::
        && PluginLoad(scan, s.tools.Keys, s, s', ok)
        && reply == if ok then Reloaded(|s'.plugins|, |s'.plugins| + |s'.tools|) else PluginsFailed
    else s' == s && reply == Reloaded(|s.plugins|, |s.plugins| + |s.tools|)
  }

  /** A reload: configuration, then tools, then plugins, stopping at the first failure. */
  ghost predicate Reload(e: Engine, req: ReloadRequest, config: Option<seq<Service>>, scan: Scan,
                         s: State, s': State, reply: Reply)
  {
    if !req.config then PluginPart(req, scan, s, s', reply)
    else if config.None? then s' == s && reply == ConfigFailed
    else
      exists mid, ok ::
        && ToolLoad(e, config.value, s.plugins.Keys, s.(apis := config.value), mid, ok)
        && if ok then PluginPart(req, scan, mid, s', reply) else s' == mid && reply == ToolsFailed
  }

  lemma PluginsLast(req: ReloadRequest, scan: Scan, s: State, s': State, ok: bool)
    requires (req.plugins || !req.config) && PluginLoad(scan, s.tools.Keys, s, s', ok)
    ensures PluginPart(req, scan, s, s', if ok then Reloaded(|s'.plugins|, |s'.plugins| + |s'.tools|) else PluginsFailed)
  {
  }

  lemma NoPlugins(req: ReloadRequest, scan: Scan, s: State)
    requires req.config && !req.plugins
    ensures PluginPart(req, scan, s, s, Reloaded(|s.plugins|, |s.plugins| + |s.tools|))
  {
  }

  lemma ToolsThenPlugins(e: Engine, req: ReloadRequest, config: seq<Service>, scan: Scan,
                         s: State, mid: State, s': State, reply: Reply)
    requires req.config && ToolLoad(e, config, s.plugins.Keys, s.(apis := config), mid, true)
    requires PluginPart(req, scan, mid, s', reply)
    ensures Reload(e, req, Some(config), scan, s, s', reply)
  {
  }

  lemma ToolsFail(e: Engine, req: ReloadRequest, config: seq<Service>, scan: Scan, s: State, s': State)
    requires req.config && ToolLoad(e, config, s.plugins.Keys, s.(apis := config), s', false)
    ensures Reload(e, req, Some(config), scan, s, s', ToolsFailed)
  {
  }

  /** Every tool belongs to a service of the configuration. */
  ghost predicate Fits(apis: seq<Service>, tools: map<string, ToolMeta>)
  {
    forall n | n in tools :: exists i | 0 <= i < |apis| :: apis[i].name == tools[n].apiName
  }

  ghost predicate IsBound(s: State)
  {
    Fits(s.apis, s.tools)
  }

  lemma PluginPartKeeps(req: ReloadRequest, scan: Scan, s: State, s': State, reply: Reply)
    requires PluginPart(req, scan, s, s', reply) && IsSafe(s)
    ensures IsSafe(s') && s'.tools == s.tools && s'.apis == s.apis
    ensures reply.PluginsFailed? ==> s' == s
  {
    if req.plugins || !req.config {
      var ok :| PluginLoad(scan, s.tools.Keys, s, s', ok)
                && reply == if ok then Reloaded(|s'.plugins|, |s'.plugins| + |s'.tools|) else PluginsFailed;
      if ok {
        StoredPlugins(scan, s.tools.Keys);
      }
    }
  }

  /**
   * Every reload keeps the stores safe, whatever fails on the way. Failed parts change nothing; but a
   * configuration that was swapped in stays when the tools then fail to load.
   */
  lemma ReloadKeepsSafe(e: Engine, req: ReloadRequest, config: Option<seq<Service>>, scan: Scan,
                        s: State, s': State, reply: Reply)
    requires Reload(e, req, config, scan, s, s', reply) && IsSafe(s)
    ensures IsSafe(s')
    ensures reply.ConfigFailed? ==> s' == s
    ensures reply.ToolsFailed? ==> s' == s.(apis := config.value)
    ensures reply.PluginsFailed? ==> s'.plugins == s.plugins
    ensures reply.Reloaded? ==> reply.pluginCount == |s'.plugins| && reply.toolsCount == |s'.plugins| + |s'.tools|
  {
    if req.config && config.Some? {
      var mid, ok :| ToolLoad(e, config.value, s.plugins.Keys, s.(apis := config.value), mid, ok)
                     && if ok then PluginPart(req, scan, mid, s', reply) else s' == mid && reply == ToolsFailed;
      ToolPartKeeps(e, config.value, s, mid, ok);
      if ok {
        PluginPartKeeps(req, scan, mid, s', reply);
      }
    } else if !req.config {
      PluginPartKeeps(req, scan, s, s', reply);
    }
  }

  /**
   * What a reload that succeeds has renewed: the configuration and the tools if it was asked for them, the
   * plugins if it was asked for them or for nothing. The rest is as before.
   */
  lemma ReloadScope(e: Engine, req: ReloadRequest, config: Option<seq<Service>>, scan: Scan, s: State, s': State, reply: Reply)
    requires Reload(e, req, config, scan, s, s', reply) && reply.Reloaded?
    ensures if req.config then config == Some(s'.apis) else s'.apis == s.apis && s'.tools == s.tools && s'.byAPI == s.byAPI
    ensures if req.plugins || !req.config
            then |s'.plugins| == |scan.loaded| && forall p | p in scan.loaded :: p.name in s'.plugins && s'.plugins[p.name] == p
            else s'.plugins == s.plugins
    ensures req.config ==>
              exists rds :: AreReadings(s'.apis, rds) && CanLoad(e, s'.apis, rds, s.plugins.Keys)
                            && IsLoaded(e, s'.apis, rds, s'.tools, s'.byAPI)
  {
    if req.config && config.Some? {
      var begun := s.(apis := config.value);
      var mid, ok :| ToolLoad(e, config.value, s.plugins.Keys, begun, mid, ok)
                     && if ok then PluginPart(req, scan, mid, s', reply) else s' == mid && reply == ToolsFailed;
      PluginPartScope(req, scan, mid, s', reply);
      LoadedStores(e, config.value, s.plugins.Keys, begun, mid);
    } else {
      PluginPartScope(req, scan, s, s', reply);
    }
  }

  lemma PluginPartScope(req: ReloadRequest, scan: Scan, s: State, s': State, reply: Reply)
    requires PluginPart(req, scan, s, s', reply) && reply.Reloaded?
    ensures s' == s.(plugins := s'.plugins)
    ensures if req.plugins || !req.config
            then |s'.plugins| == |scan.loaded| && forall p | p in scan.loaded :: p.name in s'.plugins && s'.plugins[p.name] == p
            else s'.plugins == s.plugins
  {
    if req.plugins || !req.config {
      StoredPlugins(scan, s.tools.Keys);
    }
  }

  lemma LoadedStores(e: Engine, apis: seq<Service>, reserved: set<string>, s: State, s': State)
    requires ToolLoad(e, apis, reserved, s, s', true)
    ensures s' == s.(tools := s'.tools, byAPI := s'.byAPI)
    ensures exists rds :: AreReadings(apis, rds) && CanLoad(e, apis, rds, reserved) && IsLoaded(e, apis, rds, s'.tools, s'.byAPI)
  {
  }

  lemma ToolPartKeeps(e: Engine, config: seq<Service>, s: State, mid: State, ok: bool)
    requires ToolLoad(e, config, s.plugins.Keys, s.(apis := config), mid, ok) && IsSafe(s)
    ensures IsSafe(mid) && mid.plugins == s.plugins
    ensures !ok ==> mid == s.(apis := config)
  {
    ToolLoadFrame(e, config, s.plugins.Keys, s.(apis := config), mid, ok);
  }

  /** Some reading of the documents can load, and then the tools fit the configuration. */
  ghost predicate SomeReadingLoads(e: Engine, apis: seq<Service>, reserved: set<string>)
  {
    exists rds :: AreReadings(apis, rds) && CanLoad(e, apis, rds, reserved)
  }

  ghost predicate EveryReadingLoads(e: Engine, apis: seq<Service>, reserved: set<string>)
  {
    forall rds | AreReadings(apis, rds) :: CanLoad(e, apis, rds, reserved)
  }

  ghost predicate AreUnambiguous(apis: seq<Service>)
  {
    forall i | 0 <= i < |apis| && apis[i].decoded.Some? :: IsUnambiguousDoc(apis[i].decoded.value)
  }

  /** What a reload of a configuration leaves behind: fitting tools, or the old ones. */
  lemma ReloadBinds(e: Engine, req: ReloadRequest, config: seq<Service>, scan: Scan, s: State, s': State, reply: Reply)
    requires req.config && Reload(e, req, Some(config), scan, s, s', reply)
    ensures s'.apis == config
    ensures exists rds :: AreReadings(config, rds)
              && if CanLoad(e, config, rds, s.plugins.Keys) then Fits(config, s'.tools) else s'.tools == s.tools
  {
    var begun := s.(apis := config);
    var mid, ok :| ToolLoad(e, config, s.plugins.Keys, begun, mid, ok)
                   && if ok then PluginPart(req, scan, mid, s', reply) else s' == mid && reply == ToolsFailed;
    var rds :| AreReadings(config, rds) && (ok <==> CanLoad(e, config, rds, s.plugins.Keys))
               && (if ok then mid == begun.(tools := mid.tools, byAPI := mid.byAPI) && IsLoaded(e, config, rds, mid.tools, mid.byAPI)
                   else mid == begun);
    if ok {
      ToolLoadBy(e, config, rds, s.plugins.Keys, begun, mid, true);
      LoadedTools(e, config, s.plugins.Keys, begun, mid);
      PluginPartFrame(req, scan, mid, s', reply);
    }
  }

  lemma PluginPartFrame(req: ReloadRequest, scan: Scan, s: State, s': State, reply: Reply)
    requires PluginPart(req, scan, s, s', reply)
    ensures s' == s.(plugins := s'.plugins)
  {
  }

  /**
   * Every reload of a configuration leaves only tools of configured services, whatever the map order and
   * the plugins, exactly when the documents load under every order or the tools from before already fit.
   */
  lemma ReloadBindsExactly(e: Engine, req: ReloadRequest, config: seq<Service>, s: State)
    requires req.config
    ensures (forall scan, s', reply | Reload(e, req, Some(config), scan, s, s', reply) :: IsBound(s'))
       <==> EveryReadingLoads(e, config, s.plugins.Keys) || Fits(config, s.tools)
  {
    if EveryReadingLoads(e, config, s.plugins.Keys) || Fits(config, s.tools) {
      forall scan, s', reply | Reload(e, req, Some(config), scan, s, s', reply) ensures IsBound(s') {
        ReloadBinds(e, req, config, scan, s, s', reply);
      }
    } else {
      var rds :| AreReadings(config, rds) && !CanLoad(e, config, rds, s.plugins.Keys);
      var stale := s.(apis := config);
      ToolLoadBy(e, config, rds, s.plugins.Keys, stale, stale, false);
      ToolsFail(e, req, config, Scan([], 0), s, stale);
      assert Reload(e, req, Some(config), Scan([], 0), s, stale, ToolsFailed) && !IsBound(stale);
    }
  }

  /** Whether unambiguous documents load can be told from any reading. */
  lemma AnyReadingTells(e: Engine, apis: seq<Service>, reserved: set<string>, rds: seq<Reading>)
    requires AreReadings(apis, rds) && AreUnambiguous(apis)
    ensures CanLoad(e, apis, rds, reserved) <==> SomeReadingLoads(e, apis, reserved)
  {
    if other :| AreReadings(apis, other) && CanLoad(e, apis, other, reserved) {
      LoadIgnoresMapOrder(e, apis, reserved, rds, map[], map[], other, map[], map[]);
    }
  }

  lemma ConfigReloadBinds(e: Engine, req: ReloadRequest, config: seq<Service>, scan: Scan, s: State, s': State, reply: Reply)
    requires req.config && Reload(e, req, Some(config), scan, s, s', reply) && AreUnambiguous(config)
    ensures IsBound(s') <==> SomeReadingLoads(e, config, s.plugins.Keys) || Fits(config, s.tools)
  {
    ReloadBinds(e, req, config, scan, s, s', reply);
    var rds :| AreReadings(config, rds)
               && if CanLoad(e, config, rds, s.plugins.Keys) then Fits(config, s'.tools) else s'.tools == s.tools;
    AnyReadingTells(e, config, s.plugins.Keys, rds);
  }

  /** For unambiguous documents the same holds of each reload; other requests leave the services alone. */
  lemma ReloadBindsByGuard(e: Engine, req: ReloadRequest, config: Option<seq<Service>>, scan: Scan,
                           s: State, s': State, reply: Reply)
    requires Reload(e, req, config, scan, s, s', reply)
    requires config.Some? ==> AreUnambiguous(config.value)
    ensures IsBound(s') <==>
              if req.config && config.Some? then SomeReadingLoads(e, config.value, s.plugins.Keys) || Fits(config.value, s.tools)
              else IsBound(s)
  {
    if req.config && config.Some? {
      ConfigReloadBinds(e, req, config.value, scan, s, s', reply);
    } else if !req.config {
      PluginPartFrame(req, scan, s, s', reply);
    }
  }

  /** A service whose document cannot be read. */
  const BROKEN_SERVICE := Service("t", "", None, APIDiscovery([], []))

  /** A configuration of that service alone does not load, under any order and beside any names. */
  lemma BrokenServiceFails(e: Engine, reserved: set<string>, s: State)
    ensures ToolLoad(e, [BROKEN_SERVICE], reserved, s, s, false)
  {
    var rds := MoreReadings([BROKEN_SERVICE], []);
    assert !ServiceCanLoad(e, BROKEN_SERVICE, rds[0], reserved);
    assert [BROKEN_SERVICE][0] == BROKEN_SERVICE;
    ToolLoadBy(e, [BROKEN_SERVICE], rds, reserved, s, s, false);
  }

  /** It strands every tool of another service. */
  lemma BrokenServiceStrands(e: Engine, s: State, n: string) returns (s': State)
    requires n in s.tools && s.tools[n].apiName != "t"
    ensures Reload(e, ReloadRequest(false, true), Some([BROKEN_SERVICE]), Scan([], 0), s, s', ToolsFailed)
    ensures s' == s.(apis := [BROKEN_SERVICE]) && !IsBound(s')
  {
    s' := s.(apis := [BROKEN_SERVICE]);
    BrokenServiceFails(e, s.plugins.Keys, s');
    ToolsFail(e, ReloadRequest(false, true), [BROKEN_SERVICE], Scan([], 0), s, s');
  }

  /** The states while the tools of one service are loaded at the start. */
  lemma OneServiceServes(e: Engine, id: string) returns (configured: State, s: State)
    requires id != ""
    ensures Does(e, LoadConfig([OneToolService(id)]), EMPTY, configured) && Does(e, LoadTools, configured, s)
    ensures s.apis == [OneToolService(id)] && s.plugins == map[]
    ensures id in s.tools && s.tools[id].apiName == "s" && IsBound(s)
  {
    configured := EMPTY.(apis := [OneToolService(id)]);
    assert configured.plugins.Keys == {};
    s := OneToolLoads(e, id, {}, configured);
    assert s.apis[0].name == "s";
  }

  /** A reload of the configuration whose only service cannot be read. */
  const BREAKING_RELOAD := ServeReload(ReloadRequest(false, true), Some([BROKEN_SERVICE]), Scan([], 0))

  lemma BreakingReload(e: Engine, s: State, n: string) returns (s': State)
    requires n in s.tools && s.tools[n].apiName == "s"
    ensures Does(e, BREAKING_RELOAD, s, s') && s'.tools == s.tools && !IsBound(s')
    ensures Reload(e, BREAKING_RELOAD.req, BREAKING_RELOAD.config, BREAKING_RELOAD.scan, s, s', ToolsFailed)
  {
    s' := BrokenServiceStrands(e, s, n);
  }

  /**
   * The server can be brought to this: one tool is loaded and bound to its service, then a reload fails half
   * way, and the tool stays while its service is gone.
   */
  lemma FailedReloadStrandsTools(e: Engine, id: string) returns (states: seq<State>)
    requires id != ""
    ensures AreDone(e, [LoadConfig([OneToolService(id)]), LoadTools, BREAKING_RELOAD], states)
    ensures Reload(e, BREAKING_RELOAD.req, BREAKING_RELOAD.config, BREAKING_RELOAD.scan, states[2], states[3], ToolsFailed)
    ensures IsBound(states[2]) && id in states[3].tools && !IsBound(states[3])
  {
    var configured, s := OneServiceServes(e, id);
    var s' := BreakingReload(e, s, id);
    ThreeJobs(e, LoadConfig([OneToolService(id)]), LoadTools, BREAKING_RELOAD, configured, s, s');
    states := [EMPTY, configured, s, s'];
    assert states[2] == s && states[3] == s';
  }

  lemma ThreeJobs(e: Engine, first: Job, second: Job, third: Job, a: State, b: State, c: State)
    requires Does(e, first, EMPTY, a) && Does(e, second, a, b) && Does(e, third, b, c)
    ensures AreDone(e, [first, second, third], [EMPTY, a, b, c])
  {
    var jobs, states := [first, second, third], [EMPTY, a, b, c];
    assert jobs[0] == first && jobs[1] == second && jobs[2] == third;
    assert states[0] == EMPTY && states[1] == a && states[2] == b && states[3] == c;
  }

  /** One reload request as it was served. */
  datatype Served = Served(req: ReloadRequest, config: Option<seq<Service>>, scan: Scan, reply: Reply)

  /** Requests served one after the other keep every state safe. */
  lemma {:induction false} ReloadRunsStaySafe(e: Engine, states: seq<State>, served: seq<Served>, k: nat)
    requires |states| == |served| + 1 && IsSafe(states[0]) && k < |states|
    requires forall i {:trigger served[i]} | 0 <= i < |served| ::
               Reload(e, served[i].req, served[i].config, served[i].scan, states[i], states[i + 1], served[i].reply)
    ensures IsSafe(states[k])
  {
    if k > 0 {
      ReloadRunsStaySafe(e, states, served, k - 1);
      var v := served[k - 1];
      ReloadKeepsSafe(e, v.req, v.config, v.scan, states[k - 1], states[k], v.reply);
    }
  }

  // ---------- Loads and reloads as runs ----------

  /** What the server is made to do: configure at the start, load either store, serve a reload. */
  datatype Job =
    | LoadConfig(apis: seq<Service>)
    | LoadPlugins(scan: Scan)
    | LoadTools
    | ServeReload(req: ReloadRequest, config: Option<seq<Service>>, scan: Scan)

  /** One job done as a whole. */
  ghost predicate Does(e: Engine, job: Job, s: State, s': State)
  {
    match job
    case LoadConfig(apis) => s' == s.(apis := apis)
    case LoadPlugins(scan) => exists ok :: PluginLoad(scan, s.tools.Keys, s, s', ok)
    case LoadTools => exists ok :: ToolLoad(e, s.apis, s.plugins.Keys, s, s', ok)
    case ServeReload(req, config, scan) => exists reply :: Reload(e, req, config, scan, s, s', reply)
  }

  /** Jobs done one after the other, in any mix, from the start. */
  ghost predicate AreDone(e: Engine, jobs: seq<Job>, states: seq<State>)
  {
    && |states| == |jobs| + 1 && states[0] == EMPTY
    && forall i {:trigger jobs[i]} | 0 <= i < |jobs| :: Does(e, jobs[i], states[i], states[i + 1])
  }

  /** Steps that lead from one state to another with at most one load under way. */
  ghost predicate Leads(s: State, xs: seq<System>, steps: seq<Step>, s': State)
  {
    && IsPath(xs, steps) && IsExclusive(xs)
    && xs[0] == System(s, map[]) && xs[|steps|] == System(s', map[])
  }

  lemma LeadsOn(s: State, xs: seq<System>, steps: seq<Step>, mid: State, ys: seq<System>, more: seq<Step>, s': State)
    requires Leads(s, xs, steps, mid) && Leads(mid, ys, more, s')
    ensures Leads(s, xs + ys[1..], steps + more, s')
  {
    var zs, all, n := xs + ys[1..], steps + more, |steps|;
    assert forall i | n <= i < |zs| :: zs[i] == ys[i - n];
    forall i | 0 <= i < |all| ensures Next(zs[i], all[i], zs[i + 1]) {
      if i < n {
        assert all[i] == steps[i];
      } else {
        assert all[i] == more[i - n];
      }
    }
  }

  lemma OneStep(s: State, apis: seq<Service>)
    ensures Leads(s, [System(s, map[]), System(s.(apis := apis), map[])], [Configure(apis)], s.(apis := apis))
  {
  }

  lemma NoStep(s: State)
    ensures Leads(s, [System(s, map[])], [], s)
  {
  }

  /** A load is its snapshot and its commit. */
  lemma TwoSteps(s: State, begin: Step, pending: Pending, commit: Step, s': State)
    requires Next(System(s, map[]), begin, System(s, map[0 := pending]))
    requires Next(System(s, map[0 := pending]), commit, System(s', map[]))
    ensures Leads(s, [System(s, map[]), System(s, map[0 := pending]), System(s', map[])], [begin, commit], s')
  {
    var xs, steps := [System(s, map[]), System(s, map[0 := pending]), System(s', map[])], [begin, commit];
    assert forall i | 0 <= i < 2 :: Next(xs[i], steps[i], xs[i + 1]);
  }

  lemma PluginLoadLeads(e: Engine, scan: Scan, s: State, s': State, ok: bool) returns (xs: seq<System>, steps: seq<Step>)
    requires PluginLoad(scan, s.tools.Keys, s, s', ok)
    ensures Leads(s, xs, steps, s')
  {
    var pending := PluginsPending(s.tools.Keys);
    var x, commit := System(s, map[0 := pending]), CommitPlugins(0, if ok then Some(s'.plugins) else None);
    RealLoadsAreCommits(e, x, 0, scan, s', ok);
    assert map[0 := pending] - {0} == map[];
    TwoSteps(s, BeginPlugins(0), pending, commit, s');
    xs, steps := [System(s, map[]), x, System(s', map[])], [BeginPlugins(0), commit];
  }

  lemma ToolLoadLeads(e: Engine, s: State, s': State, ok: bool) returns (xs: seq<System>, steps: seq<Step>)
    requires ToolLoad(e, s.apis, s.plugins.Keys, s, s', ok)
    ensures Leads(s, xs, steps, s')
  {
    var pending := ToolsPending(s.apis, s.plugins.Keys);
    var x, commit := System(s, map[0 := pending]), CommitTools(0, if ok then Some((s'.tools, s'.byAPI)) else None);
    RealLoadsAreCommits(e, x, 0, Scan([], 0), s', ok);
    assert map[0 := pending] - {0} == map[];
    TwoSteps(s, BeginTools(0), pending, commit, s');
    xs, steps := [System(s, map[]), x, System(s', map[])], [BeginTools(0), commit];
  }

  lemma PluginPartLeads(e: Engine, req: ReloadRequest, scan: Scan, s: State, s': State, reply: Reply)
    returns (xs: seq<System>, steps: seq<Step>)
    requires PluginPart(req, scan, s, s', reply)
    ensures Leads(s, xs, steps, s')
  {
    if req.plugins || !req.config {
      var ok :| PluginLoad(scan, s.tools.Keys, s, s', ok)
                && reply == if ok then Reloaded(|s'.plugins|, |s'.plugins| + |s'.tools|) else PluginsFailed;
      xs, steps := PluginLoadLeads(e, scan, s, s', ok);
    } else {
      NoStep(s);
      xs, steps := [System(s, map[])], [];
    }
  }

  /** A reload unfolds into configuring, a tool load and a plugin load, as far as it gets. */
  lemma ReloadLeads(e: Engine, req: ReloadRequest, config: Option<seq<Service>>, scan: Scan,
                    s: State, s': State, reply: Reply)
    returns (xs: seq<System>, steps: seq<Step>)
    requires Reload(e, req, config, scan, s, s', reply)
    ensures Leads(s, xs, steps, s')
  {
    if !req.config {
      xs, steps := PluginPartLeads(e, req, scan, s, s', reply);
    } else if config.None? {
      NoStep(s);
      xs, steps := [System(s, map[])], [];
    } else {
      var begun := s.(apis := config.value);
      var mid, ok :| ToolLoad(e, config.value, s.plugins.Keys, begun, mid, ok)
                     && if ok then PluginPart(req, scan, mid, s', reply) else s' == mid && reply == ToolsFailed;
      OneStep(s, config.value);
      var ys, more := ToolLoadLeads(e, begun, mid, ok);
      LeadsOn(s, [System(s, map[]), System(begun, map[])], [Configure(config.value)], begun, ys, more, mid);
      xs, steps := [System(s, map[]), System(begun, map[])] + ys[1..], [Configure(config.value)] + more;
      if ok {
        var zs, rest := PluginPartLeads(e, req, scan, mid, s', reply);
        LeadsOn(s, xs, steps, mid, zs, rest, s');
        xs, steps := xs + zs[1..], steps + rest;
      }
    }
  }

  lemma JobLeads(e: Engine, job: Job, s: State, s': State) returns (xs: seq<System>, steps: seq<Step>)
    requires Does(e, job, s, s')
    ensures Leads(s, xs, steps, s')
  {
    match job {
      case LoadConfig(apis) =>
        OneStep(s, apis);
        xs, steps := [System(s, map[]), System(s', map[])], [Configure(apis)];
      case LoadPlugins(scan) =>
        var ok :| PluginLoad(scan, s.tools.Keys, s, s', ok);
        xs, steps := PluginLoadLeads(e, scan, s, s', ok);
      case LoadTools =>
        var ok :| ToolLoad(e, s.apis, s.plugins.Keys, s, s', ok);
        xs, steps := ToolLoadLeads(e, s, s', ok);
      case ServeReload(req, config, scan) =>
        var reply :| Reload(e, req, config, scan, s, s', reply);
        xs, steps := ReloadLeads(e, req, config, scan, s, s', reply);
    }
  }

  /** Positions in a run, not decreasing, at which it is in these states with no load under way. */
  ghost predicate PassesThrough(xs: seq<System>, at: seq<nat>, states: seq<State>)
  {
    && |at| == |states|
    && (forall k | 0 <= k < |at| :: at[k] < |xs| && xs[at[k]] == System(states[k], map[]))
    && forall j, k | 0 <= j < k < |at| :: at[j] <= at[k]
  }

  lemma PassesOn(xs: seq<System>, at: seq<nat>, states: seq<State>, zs: seq<System>, s': State)
    requires xs != [] && PassesThrough(xs, at, states) && xs <= zs && zs[|zs| - 1] == System(s', map[])
    ensures PassesThrough(zs, at + [|zs| - 1], states + [s'])
  {
  }

  lemma DonePrefix(e: Engine, jobs: seq<Job>, states: seq<State>)
    requires jobs != [] && AreDone(e, jobs, states)
    ensures AreDone(e, jobs[..|jobs| - 1], states[..|jobs|])
  {
    var n := |jobs| - 1;
    forall i | 0 <= i < n ensures Does(e, jobs[..n][i], states[..n + 1][i], states[..n + 1][i + 1]) {
      assert Does(e, jobs[i], states[i], states[i + 1]);
    }
  }

  /** Any mix of jobs, one after the other, is one exclusive run that passes through their states in order. */
  lemma {:induction false} JobsAreExclusiveRuns(e: Engine, jobs: seq<Job>, states: seq<State>)
    returns (xs: seq<System>, steps: seq<Step>, at: seq<nat>)
    requires AreDone(e, jobs, states)
    ensures IsRun(xs, steps) && IsExclusive(xs) && PassesThrough(xs, at, states)
    ensures xs[|steps|] == System(states[|jobs|], map[])
  {
    var n := |jobs| - 1;
    if jobs == [] {
      NoStep(EMPTY);
      xs, steps, at := [System(EMPTY, map[])], [], [0];
    } else {
      DonePrefix(e, jobs, states);
      var ys, more, before := JobsAreExclusiveRuns(e, jobs[..n], states[..n + 1]);
      assert Does(e, jobs[n], states[n], states[n + 1]);
      var zs, rest := JobLeads(e, jobs[n], states[n], states[n + 1]);
      LeadsOn(EMPTY, ys, more, states[n], zs, rest, states[n + 1]);
      xs, steps, at := ys + zs[1..], more + rest, before + [|ys + zs[1..]| - 1];
      PassesOn(ys, before, states[..n + 1], xs, states[n + 1]);
      assert states == states[..n + 1] + [states[n + 1]];
    }
  }

  /** Any mix of loads and reloads, one after the other, keeps every state safe. */
  lemma JobsStaySafe(e: Engine, jobs: seq<Job>, states: seq<State>, k: nat)
    requires AreDone(e, jobs, states) && k <= |jobs|
    ensures IsSafe(states[k])
  {
    var xs, steps, at := JobsAreExclusiveRuns(e, jobs, states);
    ExclusiveRunsStaySafe(xs, steps, at[k]);
  }

  // ---------- A name that moves ----------

  /** The loads that move a name from a plugin to a tool. */
  function MovingJobs(n: string, scan: Scan): seq<Job>
  {
    [LoadConfig([OneToolService(n)]), LoadPlugins(scan), LoadPlugins(Scan([], 0)), LoadTools]
  }

  lemma NoPluginLoads(e: Engine, s: State)
    ensures Does(e, LoadPlugins(Scan([], 0)), s, s.(plugins := map[]))
  {
    assert PluginStore(Scan([], 0)) == map[];
    assert PluginLoad(Scan([], 0), s.tools.Keys, s, s.(plugins := map[]), true);
  }

  lemma OnePluginServes(e: Engine, n: string, s: State) returns (scan: Scan, s': State)
    requires TrimSpace(n) != "" && n !in s.tools
    ensures IsRealScan(scan) && Does(e, LoadPlugins(scan), s, s')
    ensures n in s'.plugins && s' == s.(plugins := s'.plugins)
  {
    scan, s' := OnePluginLoads(n, s.tools.Keys, s);
  }

  lemma OneToolServes(e: Engine, n: string, s: State) returns (s': State)
    requires n != "" && s.apis == [OneToolService(n)] && s.plugins == map[]
    ensures Does(e, LoadTools, s, s') && n in s'.tools
  {
    assert s.plugins.Keys == {};
    s' := OneToolLoads(e, n, {}, s);
  }

  lemma MovingStates(e: Engine, n: string, a: State) returns (scan: Scan, b: State, c: State, d: State)
    requires TrimSpace(n) != "" && n != "" && a == EMPTY.(apis := [OneToolService(n)])
    ensures IsRealScan(scan) && Does(e, LoadPlugins(scan), a, b)
    ensures Does(e, LoadPlugins(Scan([], 0)), b, c) && Does(e, LoadTools, c, d)
    ensures n in b.plugins && n in d.tools
  {
    scan, b := OnePluginServes(e, n, a);
    NoPluginLoads(e, b);
    c := b.(plugins := map[]);
    d := OneToolServes(e, n, c);
  }

  /** A name can be a plugin's and later a tool's, with one load at a time. */
  lemma NamesCanMove(e: Engine, n: string) returns (scan: Scan, states: seq<State>)
    requires TrimSpace(n) != ""
    ensures IsRealScan(scan) && AreDone(e, MovingJobs(n, scan), states)
    ensures n in states[2].plugins && n in states[4].tools
  {
    assert TrimSpace("") == "";
    var a := EMPTY.(apis := [OneToolService(n)]);
    var b, c, d;
    scan, b, c, d := MovingStates(e, n, a);
    MovingJobsAreDone(e, n, scan, a, b, c, d);
    states := [EMPTY, a, b, c, d];
  }

  lemma MovingJobsAreDone(e: Engine, n: string, scan: Scan, a: State, b: State, c: State, d: State)
    requires a == EMPTY.(apis := [OneToolService(n)]) && Does(e, LoadPlugins(scan), a, b)
    requires Does(e, LoadPlugins(Scan([], 0)), b, c) && Does(e, LoadTools, c, d)
    ensures AreDone(e, MovingJobs(n, scan), [EMPTY, a, b, c, d])
  {
    FourJobs(e, LoadConfig([OneToolService(n)]), LoadPlugins(scan), LoadPlugins(Scan([], 0)), LoadTools, a, b, c, d);
  }

  lemma FourJobs(e: Engine, first: Job, second: Job, third: Job, fourth: Job, a: State, b: State, c: State, d: State)
    requires Does(e, first, EMPTY, a) && Does(e, second, a, b) && Does(e, third, b, c) && Does(e, fourth, c, d)
    ensures AreDone(e, [first, second, third, fourth], [EMPTY, a, b, c, d])
  {
    var jobs, states := [first, second, third, fourth], [EMPTY, a, b, c, d];
    assert jobs[0] == first && jobs[1] == second && jobs[2] == third && jobs[3] == fourth;
    assert states[0] == EMPTY && states[1] == a && states[2] == b && states[3] == c && states[4] == d;
  }
}
