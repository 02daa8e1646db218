# Gateway model and proofs

A Dafny model of the logic of an MCP gateway: OpenAPI documents become tools, plugins and tools share one
name space, and connectors run shell commands, scan Redis and query SNMP devices. Each module follows one
component of the repository and has the component's form: loops stay loops, objects whose fields change are
classes, and everything that only computes is a function. Methods are proved against specification functions
or predicates, and lemmas prove what those mean.

Verify everything with `dafny verify dfyconfig.toml`.

## What is modelled

- **From a document to a call** (`Documents`, `Parameters`, `Discovery`, `Glob`, `PathTemplate`, `ToolMeta`,
  `ToolCalls`, `ToolRegistry`, `MapOrder`). Operations are extracted from a document, filtered by the discovery rules,
  turned into tools with an input schema, and called: arguments are validated, filled into the path and routed
  to the query, the headers and the body. Go's map iteration is a nondeterministic choice in every loop, and
  `MapOrder` says exactly when it can show in a load.
- **Two stores with one name space** (`Gateway`, `Server`). The plugin manager, the tool registry, the reload
  endpoint, and the listing and dispatch of the MCP server. A load is split into the snapshot of the other
  store's names and its commit, so overlapping loads are part of the model; with one load at a time the names
  stay disjoint.
- **The SSH command line** (`Shell`). The printer, and the part of the POSIX shell that reads it back, written
  from sections 2.2, 2.3, 2.9 and 2.10 of POSIX.1-2017 XCU: a tokenizer, quote removal, assignment words and
  and-lists.
- **Redis scans and windows** (`RedisScan`, `Windows`), against a server that is a sequence of replies or a
  list; and the pages of SNMP devices, with Go's 64-bit arithmetic written out.
- **SNMP** (`SnmpSemaphore`, `SnmpWalk`, `SnmpConfig`): the semaphore over all interleavings of any number of
  requests, the walk cut off through its callback, and the credentials of devices over runs of reloads.
- **Payload text** (`Payload`): the hex codec and the number lists.

`Text`, `Collect`, `Sorting`, `Json` and `Wrappers` hold what these share.

## Properties that do not hold, and when they do

- With both a working directory and an environment, the assignments stand before `cd` and the program never
  sees them; an environment key that is no valid name is not assigned at all; and no shell line holds a NUL. The
  shell reads the line as requested exactly when all texts are NUL-free, all keys are valid names, and the
  environment is empty or no working directory is set: `Shell.EnvironmentReachesProgram`. Failing requests:
  `Shell.EnvironmentCanBeLost`, `Shell.InvalidNameIsNotPassed`.
- Two overlapping loads can commit a plugin and a tool of the same name: `Gateway.OverlappingLoadsClash` gives
  the run. Before the commit, a pending load is sure to be safe exactly when the other store has gained no name
  since its snapshot: `Gateway.PluginCommitsAreSafeExactly`, `Gateway.ToolCommitsAreSafeExactly`.
- A listing reads the plugins and then the tools; when loads commit in between, even one at a time, it can list a
  name twice: `Server.StraddledListingRepeatsExactly`, `Server.ListingCanRepeat`.
- A configuration that loads while the tools do not leaves tools of services that are gone:
  `Gateway.FailedReloadStrandsTools`. No reload does so exactly when the documents load or the old tools already
  fit the new configuration: `Gateway.ReloadBindsExactly`, `Gateway.ReloadBindsByGuard`.
- Resuming a scan at the returned cursor loses the items that were dropped, and a page can be truncated with
  cursor 0: `RedisScan.ResumingEnumeratesAll` (exactly when no call drops) and `RedisScan.ResumingCanLoseItems`. What the
  caller can tell from a page: `RedisScan.NothingDroppedExactly`, `RedisScan.SomethingDroppedExactly`.
- `LRange` with a negative start can return too few elements or miss truncation, and a start close to the
  largest 64-bit number overflows: `Windows.LRangeIsWindowExactly`, `Windows.LRangeCanMiss`. A device page that starts inside
  the list panics exactly when its end overflows: `Windows.PagePanicsExactly`, `Windows.PageCanPanic`.
- A walk can be reported as truncated below its cap when the client's own error text says "walk truncated":
  `SnmpWalk.ClientErrorCanLookTruncated`, `SnmpWalk.TruncationIsExact`.
- Validation does not look at SNMP protocol names, so a validated device may have no usable client:
  `SnmpConfig.ValidationMissesProtocols`, `SnmpConfig.ValidAuthBuildsExactly`.
- A body with several JSON-like media types and different schemas leaves the choice to the map order:
  `Documents.PickIsStable`, `Documents.PickCanVary`. It shows in a load
  exactly when the services can load and some slot does not become the same tool under every order:
  `MapOrder.MapOrderIsHiddenExactly`, `MapOrder.MapOrderCanShow`.
- A validated call can lack a path argument, and an argument can reach two places or none, when the document
  does not declare its placeholders: `ToolCalls.ValidCallsFill`, `ToolCalls.ArgumentsRouteOnce`,
  `ToolCalls.MisdeclaredCallFails`.
- Filling a path with an empty value or one with a slash leaves the template:
  `PathTemplate.SafeValuesAreSegments`. The template match is transitive through exactly those paths
  that have no template segment: `PathTemplate.MatchIsTransitiveExactly`, `PathTemplate.MatchIsNotTransitive`.

Where docs/apis.md and the code differ, the model follows the code: a glob has no escapes (the document speaks
of unescaped `*` and `?`); a pattern that starts with `^` is searched for and so need not match the whole path;
an exact pattern ignores slashes at both ends and treats `{name}` segments of either side as wildcards; a
repeated operationId fails the whole load and not only its service.

## Model

| member | source | states |
|---|---|---|
| Shell.BuildCommand | internal/connector/ssh/ssh.go:167-185 | For every request the command line is that of some iteration order of the environment, and the shell reads it back as the request exactly when the request is expressible |
| Shell.ShellRoundTrip | internal/connector/ssh/ssh.go:167-192 | Tokenizing and parsing the printed line gives back command, arguments, directory and assignments if and only if no text holds a NUL and every environment key is a valid name |
| Shell.RunQuoted | internal/connector/ssh/ssh.go:187-192 | Wherever a word may go on, the quoted text adds exactly its own characters to the word, all of them quoted, and nothing else, for every NUL-free text |
| Shell.EnvironmentReachesProgram | internal/connector/ssh/ssh.go:167-185 | The shell accepts the printed line and runs the requested words in the requested environment if and only if the request is expressible and has no environment or no working directory |
| Shell.WorkdirTakesEnvironment | internal/connector/ssh/ssh.go:173-183 | With both, the line reads as `cd` with the assignments followed by the program without any |
| Shell.EnvironmentCanBeLost | internal/connector/ssh/ssh.go:173-183 | A request with both whose program misses its variable |
| Shell.InvalidNameIsNotPassed | internal/connector/ssh/ssh.go:177-183 | A request without working directory whose variable name starts with a digit and is not passed |
| Glob.MatchGlob | internal/openapi/pathmatch.go:24-50 | The loop over the pattern, the compiled text and the search decide the declarative glob meaning; compiling never fails |
| Glob.GlobTextParses | internal/openapi/pathmatch.go:25-44 | The regular expression written for any pattern is accepted and parses to begin, one node for each pattern character, end |
| Glob.CompiledGlobIsExact | internal/openapi/pathmatch.go:24-50 | The compiled expression finds a match exactly when the text can be cut into one piece for each pattern character, with `*` any run and `?` one character, newline excluded, and every other character itself |
| PathTemplate.SplitPathStrips | internal/openapi/pathmatch.go:70-76 | Trimming slashes and splitting is splitting and stripping the empty segments at both ends |
| PathTemplate.TemplateSegMeans | internal/openapi/pathmatch.go:78-80 | A template segment is exactly a non-empty name in braces, and the name is what the braces hold |
| PathTemplate.PlaceholdersMean | internal/openapi/schema.go:134-137 | The placeholders of a path are exactly the names that stand in braces alone between slashes |
| PathTemplate.MatchMeans | internal/openapi/pathmatch.go:52-68 | Two paths match if and only if they have as many segments and the same ones wherever neither has braces |
| PathTemplate.FixedPathsMatchExactly | internal/openapi/pathmatch.go:52-68 | Paths without braces match if and only if they have the same segments |
| PathTemplate.TemplateMatchesInstances | internal/openapi/pathmatch.go:52-68 | A template matches a path without braces if and only if replacing each braced segment by some segment gives that path |
| PathTemplate.FilledMatchesTemplate | internal/openapi/schema.go:133-146 | A template filled with non-empty slash-free values matches the template, for every template |
| PathTemplate.SafeValuesAreSegments | internal/openapi/pathmatch.go:52-68 | A value can be filled into every template without leaving it if and only if it is non-empty and has no slash |
| PathTemplate.FilledSegments | internal/openapi/schema.go:134-145 | Filling with slash-free values keeps the number of segments and the fixed ones and puts each value at its own placeholder |
| PathTemplate.FilledDeterminesValues | internal/openapi/schema.go:133-146 | Two slash-free fillings of a template are equal if and only if every placeholder has the same value in both |
| PathTemplate.MatchIsReflexiveSymmetric | internal/openapi/pathmatch.go:52-68 | The match is reflexive and symmetric |
| PathTemplate.MatchIsTransitiveExactly | internal/openapi/pathmatch.go:52-68 | Any two paths that match a path match each other if and only if that path has no template segment |
| PathTemplate.MatchIsNotTransitive | internal/openapi/pathmatch.go:52-68 | Three paths of which the first and last do not match though both match the middle one |
| PathTemplate.EndSlashesDoNotMatter | internal/openapi/pathmatch.go:70-76 | Any number of leading or trailing slashes on either side changes no match |
| Discovery.MatchPath | internal/openapi/pathmatch.go:10-22 | Fails exactly on a regular expression that does not compile, and otherwise answers by pattern kind: expression, glob or template (MatchMeans says what a template matches) |
| Discovery.Match | internal/openapi/matcher.go:36-216 | The early-return loops of all matchers decide the declarative meaning of the matcher tree, and in a compiled tree no path pattern is passed over for an error |
| Discovery.MatchAnyPath | internal/openapi/matcher.go:72-83 | Answers whether some pattern that compiles hits, and has passed over a pattern only if one does not compile |
| Discovery.ValidatePathPatterns | internal/openapi/matcher.go:86-95 | Accepts exactly when every `^` pattern compiles |
| Discovery.NewRuleMatcher | internal/openapi/matcher.go:124-150 | Built exactly when the patterns of the rule compile; then it holds only compiled patterns and answers as the rule formula for every operation |
| Discovery.NewRuleMatchers | internal/openapi/matcher.go:187-201 | Built exactly when all rules compile, and each child is compiled and answers as its own rule |
| Discovery.NewDiscoveryMatcher | internal/openapi/matcher.go:185-206 | The nested matchers compute include and not exclude, an OR of ANDs of ORs, for every operation; built exactly when all patterns compile, and then compiled throughout |
| Discovery.RulePartsMeanRule | internal/openapi/matcher.go:152-159 | The parts built for the present fields all match exactly when the rule does |
| Discovery.FieldsAreJoined | internal/openapi/matcher.go:152-159 | A rule matches exactly when each of its fields alone does, and always without fields |
| Discovery.ValuesAreAlternatives | internal/openapi/matcher.go:36-117 | A field with two lists of values matches exactly when it does with one of them |
| Discovery.OneValueMeans | internal/openapi/matcher.go:36-117 | What one value asks for: the expression on the operationId, the method in any case, the tag exactly, the path by expression, glob or template |
| Discovery.AddingRules | internal/openapi/matcher.go:208-216 | Exactly what another exclude, another include and the first include rule change, so which of them can never expose more or less |
| Discovery.NoPatternFailsLate | internal/openapi/matcher.go:72-95 | No path pattern held anywhere in a compiled matcher, as every built one is, makes matchPath fail |
| Parameters.KeyTextIsExact | internal/openapi/parse.go:171 | The text key `location:name` identifies exactly the pair it is made of |
| Parameters.MergedIsOverride | internal/openapi/parse.go:155-198 | One entry for each first occurrence of a key, in that order, whose value is the last occurrence; ignored entries leave no trace |
| Parameters.MergedIsUnique | internal/openapi/parse.go:155-198 | Location and name occur together once, path parameters are required, and every entry that is kept appears |
| Parameters.OperationOverridesPath | internal/openapi/parse.go:189-196 | A parameter declared at operation level is never taken from the path level |
| Parameters.MergedMeans | internal/openapi/parse.go:155-198 | A parameter is in the merge if and only if it is the last one the operation level declares for its location and name, or the last of the path level and the operation level declares none |
| Parameters.ConvertMeans | internal/openapi/parse.go:164-185 | A kept entry becomes the parameter of its name and location with its description, required if it says so or lies in the path, and with its schema or the string type |
| Parameters.MergeParameters | internal/openapi/parse.go:155-198 | Both loops over both levels compute that ordered override |
| Documents.LoadDoc | internal/openapi/parse.go:76-95 | Loads exactly the decoded documents whose version begins with 3. |
| Documents.PickIsStable | internal/openapi/parse.go:245-258 | The choice of media type is the same for all map orders if and only if application/json or */* has a schema or all JSON-like schemas are equal |
| Documents.PicksBestRank | internal/openapi/parse.go:245-258 | What can be picked is a schema of the best rank present, application/json before */* before other JSON-like types, and none when there is no such schema |
| Documents.PickCanVary | internal/openapi/parse.go:245-258 | Content with two JSON-like types of which either schema can be picked |
| Documents.PickJSONMedia | internal/openapi/parse.go:245-258 | The loop returns one of the results allowed by the order of preference, for every map order |
| Documents.SkipsExactly | internal/openapi/parse.go:200-243 | An operation is skipped exactly for a referenced body, content without a JSON schema, or a schema reference that names no object; and it has a body exactly when it is not skipped and there is content |
| Documents.ResolvesExactly | internal/openapi/parse.go:260-283 | A schema resolves to another if and only if it is that one without a reference, or refers to it locally by name |
| Documents.BodyMeans | internal/openapi/parse.go:215-243 | A body is that of some JSON schema of the content, resolved: expanded into exactly its properties and required names if it is an object schema, whole otherwise |
| Documents.NormalizeOperation | internal/openapi/parse.go:127-150 | The operation read at a slot is one some map order gives: what OperationMeans, SkipsExactly and BodyMeans say of it |
| Documents.OperationMeans | internal/openapi/parse.go:127-150 | An operation carries id, method, path, tags, summary and description of its slot, and exactly the operation's own parameters and those of the path item it does not redeclare |
| Documents.ExtractOperations | internal/openapi/parse.go:97-153 | In any path order every operation with an operationId is emitted once, and exactly the later ones of a repeated operationId as stubs |
| ToolMeta.UniqueStrings | internal/openapi/schema.go:120-131 | Computes the first occurrences: the same elements, none repeated |
| ToolMeta.UniqueKeepsOrder | internal/openapi/schema.go:120-131 | Names keep the order of their first occurrence |
| ToolMeta.DeclareBody | internal/openapi/schema.go:61-72 | In any map order, exactly the body properties that no parameter claims are added |
| ToolMeta.BuildToolMeta | internal/openapi/schema.go:24-118 | The loops build the tool that RequiredMeans, PropertiesMean, ParameterMeans and MetaMeans describe |
| ToolMeta.RequiredMeans | internal/openapi/schema.go:51-103 | Required are exactly the required parameters, the required names among the free properties of an expanded body, and `body` for a required whole body |
| ToolMeta.PropertiesMean | internal/openapi/schema.go:38-97 | Declared are exactly the parameters, the free properties of an expanded body and `body` for a whole one, each body property with its schema or the string type |
| ToolMeta.ParameterMeans | internal/openapi/schema.go:38-54 | A parameter has the location of its last declaration and its schema, with its description if any and the string type if none is given |
| ToolMeta.MetaMeans | internal/openapi/schema.go:25-32 | Name, service, method, path and body mode of the operation; the description is the first of summary, description, method and path |
| ToolMeta.SchemaIsConsistent | internal/openapi/schema.go:34-117 | Required names are distinct and declared, and the declared names are the disjoint union of located parameters and body properties |
| ToolMeta.ValidateArgs | internal/openapi/registry.go:259-282 | Accepts exactly when every required argument is there, not nil, and not blank if it goes into the path |
| ToolMeta.RefusesExactly | internal/openapi/registry.go:259-282 | Refused are exactly the calls with a required argument that is missing, nil, or all white space on its way into the path |
| ToolMeta.FillPath | internal/openapi/schema.go:133-146 | Succeeds exactly when every placeholder has a non-nil argument; then each name in braces is replaced by the text of its argument and the rest is kept |
| ToolMeta.RouteArgs | internal/openapi/registry.go:200-230 | In any map order: query and headers hold exactly the supplied arguments of their location as text; a whole body is the argument itself; an expanded body is there when required or some field is given, and has exactly the given fields unchanged |
| ToolMeta.RoutedMeans | internal/openapi/registry.go:200-230 | The function the routing lemmas are about yields such a request |
| ToolCalls.ValidCallsFill | internal/openapi/registry.go:188-195 | Filling succeeds for every validated argument map if and only if all placeholders are required |
| ToolCalls.MisdeclaredCallFails | internal/openapi/registry.go:188-214 | The tool of an operation that declares its placeholder as an optional query parameter: a validated call that cannot be filled, and one whose argument reaches two places |
| ToolCalls.DeclaredPlaceholdersFill | internal/openapi/parse.go:182 | When every placeholder is declared as a path parameter at either level, no validated call fails in filling |
| ToolCalls.BuiltToolsAreWellFormed | internal/openapi/schema.go:34-117 | Every built tool has its declared names in exactly one of the two maps, and `body` only in body mode |
| ToolCalls.Destinations | internal/openapi/registry.go:200-230 | A supplied argument is in the query, the headers or the body exactly by its declaration |
| ToolCalls.ArgumentsRouteOnce | internal/openapi/registry.go:192-230 | Each supplied declared argument reaches exactly one place and no other reaches any, for all accepted calls, if and only if the placeholders are the names located in the path |
| ToolCalls.WellDeclaredOperationsRouteOnce | internal/openapi/registry.go:192-230 | Distinct names, none `body` in body mode, and placeholders that are the path parameters: then every accepted call routes once |
| ToolCalls.RequestDeterminesArguments | internal/openapi/registry.go:192-230 | Calls that send the same path, query, headers and body supply the same declared arguments: routing loses nothing |
| ToolCalls.ValidCallHitsTemplate | internal/openapi/registry.go:188-195 | The path a validated call sends matches the operation's template, for slash-free string arguments |
| ToolRegistry.AddTools | internal/openapi/registry.go:82-114 | One service's loop succeeds exactly when no stub occurs and the exposed names are new and unreserved, and adds exactly their tools |
| ToolRegistry.LoadService | internal/openapi/registry.go:62-116 | A service loads exactly when document and patterns load, operationIds are distinct and its names are neither reserved nor taken; then it adds exactly the exposed tools |
| ToolRegistry.LoadServices | internal/openapi/registry.go:50-114 | For the readings some map order gives: succeeds exactly when all services can load side by side, and builds exactly what they yield and how much each yields |
| ToolRegistry.Registry.Load | internal/openapi/registry.go:49-121 | Succeeds exactly when all services can load and their names are pairwise disjoint; then the stores are exactly what the services yield; a failure changes neither store |
| ToolRegistry.Registry.Names | internal/openapi/registry.go:169-177 | Every tool name once, in some order |
| ToolRegistry.Registry.List | internal/openapi/registry.go:132-141 | Every tool once, sorted by name |
| ToolRegistry.Registry.Call | internal/openapi/registry.go:180-257 | Which of the outcomes a call has; a sent request goes to the tool's own service by its method, at the path with its arguments in place, with exactly the arguments its query, headers and body are to hold |
| ToolRegistry.ExposedMeans | internal/openapi/registry.go:85-100 | An operation is exposed exactly when it is not skipped and discovery exposes the operationId, method, path and tags the document gives; its tool is named prefix and operationId |
| ToolRegistry.LoadedToolsAreExposed | internal/openapi/registry.go:78-119 | The loaded names are exactly the prefixed operationIds of exposed operations; none is reserved and each belongs to a service of the load |
| ToolRegistry.ExposedIsTool | internal/openapi/registry.go:94-112 | Every exposed operation has the tool built from it |
| ToolRegistry.CountsAddUp | internal/openapi/registry.go:112-119 | Each service's count is its number of exposed operations, and the counts sum to the number of tools |
| ToolRegistry.NoStubMeansDistinct | internal/openapi/registry.go:84-87 | The loop meets no stub exactly when no two operations of the document share an operationId |
| ToolRegistry.ReadingIsDetermined | internal/openapi/parse.go:97-153 | An unambiguous document is read the same way under every map order |
| ToolRegistry.LoadIgnoresMapOrder | internal/openapi/registry.go:49-121 | Two loads of unambiguous documents under any map orders both fail or both succeed, with the same tools and counts |
| MapOrder.MapOrderIsHiddenExactly | internal/openapi/registry.go:49-121 | Under all pairs of map orders the load fails alike or yields the same tools and counts, if and only if it fails under every order or every slot is left out or becomes the same tool under all of them |
| MapOrder.UnambiguousIsStable | internal/openapi/parse.go:245-258 | Unambiguous documents meet that condition |
| MapOrder.MapOrderCanShow | internal/openapi/parse.go:245-258 | One operation with two JSON-like types of different plain schemas: a load that succeeds under one order and under another does not come to the same |
| Gateway.RealLoadsAreCommits | internal/plugin/manager.go:37-65 | What the two loads do is a commit step that avoids the snapshot it began with |
| Gateway.PluginCommitsAreSafeExactly | internal/plugin/manager.go:40-61 | Every commit of a pending plugin load, whatever it builds, is safe if and only if all current tools were in its snapshot; over real loads, which bring no blank names, all tools but those with blank names |
| Gateway.ToolCommitsAreSafeExactly | internal/openapi/registry.go:54-119 | Every commit of a pending tool load is safe if and only if all current plugins were in its snapshot; over real loads, all but a nameless plugin |
| Gateway.StepIsSafeExactly | internal/openapi/registry.go:49-121 | A given step keeps the names disjoint if and only if it adds no name that appeared in the other store since its snapshot |
| Gateway.RunsStaySafe | internal/plugin/manager.go:37-65 | In every state of every run whose commits missed no name, no plugin and tool share a name |
| Gateway.ExclusiveRunsStaySafe | internal/plugin/manager.go:40-61 | With at most one load under way at a time, every state of every run is safe |
| Gateway.OverlappingLoadsClash | internal/openapi/registry.go:54-119 | A run of two overlapping real loads that ends with a plugin and a tool of the same name |
| Gateway.ReloadKeepsSafe | internal/api/server.go:263-296 | Every reload, whatever fails, keeps the names disjoint; what each failure leaves in place; the counts it reports |
| Gateway.ReloadScope | internal/api/server.go:263-296 | A reload that succeeds renews exactly what was asked for, and the plugins when nothing was; the rest is as before |
| Gateway.ReloadBindsExactly | internal/api/server.go:270-281 | Under every map order a configuration reload leaves only tools of configured services, if and only if the documents load beside the plugins under every order or the tools from before already fit |
| Gateway.ReloadBindsByGuard | internal/api/server.go:263-296 | For unambiguous documents the same of each single reload, from any state; other requests change nothing about it |
| Gateway.FailedReloadStrandsTools | internal/api/server.go:270-281 | From the start the server is brought to a bound tool, and a reload whose configuration loads and whose tools do not then leaves the tool without its service |
| Gateway.ReloadRunsStaySafe | internal/api/server.go:263-296 | In every state of every run of reload requests the names are disjoint |
| Gateway.JobsAreExclusiveRuns | internal/api/server.go:263-296 | Any mix of configuring, plugin loads, tool loads and reloads, one after the other, unfolds into one run of snapshots and commits with one load at a time that passes through all their states in order |
| Gateway.JobsStaySafe | internal/plugin/manager.go:37-65 | In every state of every such mix the names are disjoint |
| Server.Manager.Load | internal/plugin/manager.go:37-65 | Succeeds exactly when the names are distinct and unreserved and something loaded or nothing failed; then the store holds exactly the scan; a failure changes nothing |
| Server.Manager.List | internal/plugin/manager.go:87-95 | Every plugin once |
| Server.McpServer.HandleReload | internal/api/server.go:263-296 | The handler performs configuration, tools and plugins in order and stops at the first failure, as the reload relation says |
| Server.McpServer.ReloadTools | internal/api/server.go:270-281 | Swapping the configuration and loading tools is a tool load against the plugin names of that moment |
| Server.McpServer.ToolsList | internal/mcp/server.go:123-147 | The listing is the plugins in some order and then the tools by name, as many as ToolsCount says |
| Server.McpServer.Dispatch | internal/mcp/server.go:168-185 | A call goes to the plugin of the name, otherwise to the tool of the name, otherwise to nobody, also when both stores have the name |
| Server.ListedKeys | internal/mcp/server.go:130-145 | Each entry has the name and the description of its plugin or tool |
| Server.ListingAgreesWithDispatch | internal/mcp/server.go:123-185 | In a safe state no name is listed twice, each listed name is answered by the store that listed it, and exactly the unlisted ones by nobody |
| Server.ExclusiveRunsAgree | internal/mcp/server.go:123-185 | A listing taken of one state of a run with one load at a time has as many entries as both stores, repeats no name and agrees with dispatch in that state |
| Server.StraddledListingRepeatsExactly | internal/mcp/server.go:123-147 | A listing that reads the plugins in one state and the tools in a later one repeats no name if and only if no tool it sees has the name of a plugin it saw |
| Server.ListingCanRepeat | internal/mcp/server.go:123-147 | A run with one load at a time in which a name moves from a plugin to a tool between two states |
| Server.ServedStatesAgree | internal/mcp/server.go:123-185 | The same of a listing taken of any state that any mix of loads and reloads leads to |
| RedisScan.ClampLimit | internal/connector/redis/limit.go:11-22 | Positive requests only, capped by the configured or the default maximum and otherwise unchanged |
| RedisScan.PageConserves | internal/connector/redis/redis.go:341-369 | What a page holds and what was dropped are together what the server sent; truncated pages are full, others complete with cursor 0 |
| RedisScan.NothingDroppedExactly | internal/connector/redis/redis.go:341-369 | Whatever replies can have led to a page, none dropped an item, if and only if the page is not truncated |
| RedisScan.SomethingDroppedExactly | internal/connector/redis/redis.go:341-369 | Whatever replies can have led to a page, all dropped an item, if and only if the page is truncated with cursor 0 |
| RedisScan.Scan | internal/connector/redis/redis.go:341-369 | For every reply sequence that ends, the loop ends, reads exactly up to the first stopping point, asks with the right cursors and returns that page |
| RedisScan.CursorsMean | internal/connector/redis/redis.go:342-356 | The first call asks with the requested cursor and each other with the one the reply before it gave |
| RedisScan.HScan | internal/connector/redis/redis.go:786-815 | The same over field and value pairs, an odd last element ignored |
| RedisScan.TakePairs | internal/connector/redis/redis.go:794-800 | The inner loop keeps the first pairs that fit and reports exactly whether one was dropped |
| RedisScan.PairsMeans | internal/connector/redis/redis.go:794-800 | The entries are the fields at even places with the value after each, as many as there are whole pairs |
| RedisScan.ResumingEnumeratesAll | internal/connector/redis/redis.go:341-369 | Calls resumed at the returned cursors return all items of the server, once and in order, if and only if no call dropped one |
| RedisScan.ResumingCanLoseItems | internal/connector/redis/redis.go:348-363 | A truncated page with cursor 0 whose dropped item is never returned |
| Windows.LRangeIsWindowExactly | internal/connector/redis/redis.go:661-677 | The sample is the window at its start and its truncation mark is right if and only if the start is in the stated range, negative starts and overflow included |
| Windows.LRangeCanMiss | internal/connector/redis/redis.go:661-677 | Two elements from the last of four on: the code returns none and the window holds one |
| Windows.SamplesTile | internal/connector/redis/redis.go:661-677 | Advancing by the count while truncated rebuilds the list from the start |
| Windows.ZRangeSample | internal/connector/redis/redis.go:613-634 | The first members up to the limit, truncated exactly when there are more |
| Windows.ListDevices | internal/config/config.go:448-475 | In any map order, the requested page of the sorted matching devices |
| Windows.MatchListIsUnique | internal/config/config.go:448-475 | The sorted list of matching devices does not depend on the map order |
| Windows.MatchListMeans | internal/config/config.go:477-487 | Listed are exactly the devices that have every wanted label with its value, where no label counts as the empty value |
| Windows.PageDefaults | internal/config/config.go:459-466 | Without a positive limit a page has a hundred entries, and a negative offset counts as none |
| Windows.PagePanicsExactly | internal/config/config.go:459-474 | The page is cut out without a slice panic if and only if it starts past the list or its end does not overflow |
| Windows.PageCanPanic | internal/config/config.go:470-474 | Two devices, the second as offset and the largest limit: the slice panics |
| Windows.PagesTile | internal/config/config.go:459-474 | The pages at successive offsets are together the list from the first offset |
| Windows.DevicePagesTile | internal/config/config.go:448-475 | Successive calls, each under its own map order, all succeed and continue the one sorted list of matching devices; with a page that is not full they have reached its end |
| SnmpSemaphore.StepKeepsSafe | internal/connector/snmp/snmp.go:99-120 | Every action of every request keeps one token for each holder, the capacity, and the balance of each request |
| SnmpSemaphore.RunsStaySafe | internal/connector/snmp/snmp.go:156-203 | In every state of every interleaving of any number of requests that invariant holds |
| SnmpSemaphore.DoneMeansBalanced | internal/connector/snmp/snmp.go:99-108 | A request that is done released each token it took, at most one, and closed each client it opened |
| SnmpSemaphore.ReleaseNeverBlocks | internal/connector/snmp/snmp.go:224-226 | A request about to release always finds a token |
| SnmpSemaphore.CancelTakesNoToken | internal/connector/snmp/snmp.go:215-222 | A cancelled acquire leaves the channel and the request without a token |
| SnmpSemaphore.SomeRequestCanMove | internal/connector/snmp/snmp.go:215-226 | While a request is unfinished, some request can move on without being cancelled |
| SnmpWalk.DeviceLimit | internal/connector/snmp/snmp.go:266-272 | At least 1; a positive limit of the device wins |
| SnmpWalk.WalkCap | internal/connector/snmp/snmp.go:147-151 | Between 1 and the device limit; a request can only lower it |
| SnmpWalk.Walker.Visit | internal/connector/snmp/snmp.go:175-185 | The callback's answer and the new captured state: appends, marks truncation, or refuses |
| SnmpWalk.DoWalk | internal/connector/snmp/snmp.go:170-203 | Driving the callback over any client, cancellation point and client error gives the stated outcome |
| SnmpWalk.TruncationIsExact | internal/connector/snmp/snmp.go:170-203 | The answer is the first variables up to the cap, truncated exactly when there are more, if and only if the context outlives the deciding callbacks and a short walk has no error of its own |
| SnmpWalk.WalksEnd | internal/connector/snmp/snmp.go:173-203 | A walk is cut short by its context, complete, or stopped by the cap, and what it returns in each case |
| SnmpWalk.CancelledExactly | internal/connector/snmp/snmp.go:193-197 | Cancelled if and only if the context ended it or ended with it and the client reports an error |
| SnmpWalk.ClientFailsExactly | internal/connector/snmp/snmp.go:198-200 | Failed if and only if all was delivered in time and the client reports an error that does not speak of truncation |
| SnmpWalk.QuietWalksAreExact | internal/connector/snmp/snmp.go:170-203 | Without cancellation and client errors every walk is exact |
| SnmpWalk.ClientErrorCanLookTruncated | internal/connector/snmp/snmp.go:193-202 | A client error whose text speaks of truncation marks a walk below its cap as truncated |
| SnmpConfig.LoadCredentials | internal/config/config.go:609-622 | Loads exactly when every credential is named, new and valid, and then holds exactly these |
| SnmpConfig.LoadDevices | internal/config/config.go:623-652 | Loads exactly when every device is named, new, addressed and has one kind of credentials that is in order, and then holds exactly these |
| SnmpConfig.LoadSNMP | internal/config/config.go:593-654 | Succeeds exactly when both lists load, a missing file being empty, and then yields their stores |
| SnmpConfig.FileLoadsExactly | internal/config/config.go:593-654 | A file loads if and only if names are there and distinct, credentials valid, hosts given, and each device either names a credential of the file or has a valid one of its own |
| SnmpConfig.LoadedIsConsistent | internal/config/config.go:593-654 | Whatever loads has valid credentials and devices whose single credentials resolve |
| SnmpConfig.DevicesResolve | internal/config/config.go:409-427 | In a consistent store exactly the stored devices resolve, to credentials that pass validation |
| SnmpConfig.DevicesResolveAsWritten | internal/config/config.go:409-427 | A loaded device resolves to the credentials of the file it names, or to its own |
| SnmpConfig.DeviceIsStored | internal/config/config.go:623-652 | A device is stored under its name as the file writes it, with port 161 when it gives none |
| SnmpConfig.ValidAuthExactly | internal/config/config.go:682-716 | Accepted are exactly 2c communities and version 3 users with the passwords of their level |
| SnmpConfig.ClientCarriesAuth | internal/connector/snmp/snmp.go:365-402 | The client has the community or the user and passwords as given, the protocols named, and defaults where the level needs one |
| SnmpConfig.ProtocolNames | internal/connector/snmp/snmp.go:417-453 | Each protocol is known exactly by its own name in any case, AES also as AES128 |
| SnmpConfig.ValidAuthBuildsExactly | internal/connector/snmp/snmp.go:353-453 | For validated credentials the version and level steps never fail: a client is built if and only if the version is 2c or both protocol names are known, and it can do what its level asks for |
| SnmpConfig.ValidationMissesProtocols | internal/config/config.go:682-716 | Validated credentials for which no client can be built |
| SnmpConfig.Manager.Reload | internal/config/config.go:113-161 | Swaps the store exactly when all files load, and otherwise keeps it |
| SnmpConfig.DevicesStayUsable | internal/config/config.go:113-161 | In every state of every run of reloads, failed ones included, each device resolves to valid credentials, usable when their protocol names are known |
| Payload.ToByte | internal/connector/netutil/payload.go:121-147 | Accepts exactly whole numbers from 0 to 255 |
| Payload.ItemRoundTrip | internal/connector/netutil/payload.go:121-147 | A byte is decoded from each kind of number that carries it |
| Payload.ItemIsOfByte | internal/connector/netutil/payload.go:121-147 | An accepted item is one of these forms of the byte it decodes to |
| Payload.IntsFromAny | internal/connector/netutil/payload.go:106-119 | Accepts exactly non-empty lists of bytes, and yields them one for one |
| Payload.DecodeInts | internal/connector/netutil/payload.go:77-88 | Accepts exactly non-empty lists of numbers in byte range, and yields them |
| Payload.DecodeFloats | internal/connector/netutil/payload.go:89-100 | Accepts exactly non-empty lists of whole numbers in byte range, and yields them |
| Payload.BytesToInts | internal/connector/netutil/payload.go:150-156 | The numbers are the bytes, one for one |
| Payload.IntsRoundTrip | internal/connector/netutil/payload.go:77-156 | Decoding the numbers of any non-empty payload gives the payload back |
| Payload.DecodeData | internal/connector/netutil/payload.go:46-104 | For each kind of input exactly what is accepted and what it decodes to, never an empty payload |
| Payload.HexRoundTrip | internal/connector/netutil/payload.go:159-161 | Hex decoding undoes hex encoding for every byte sequence |
| Payload.HexAt | internal/connector/netutil/payload.go:159-161 | Each byte is written as the digit of its high half and then that of its low half |
| Payload.HexDecodeThenEncode | internal/connector/netutil/payload.go:159-161 | Hex encoding what was decoded gives the text in lower case (section 8 of RFC 4648) |
| Payload.PayloadRoundTrip | internal/connector/netutil/payload.go:46-161 | Every non-empty payload survives the trip through its hex text |
| Payload.TextAcceptedExactly | internal/connector/netutil/payload.go:51-69 | A text is accepted if and only if, trimmed and without separators, it is a non-empty even run of hex digits; the result prints as that text in lower case |
| Payload.HexCoreKeeps | internal/connector/netutil/payload.go:52-58 | Of the trimmed text exactly spaces, colons and dashes are dropped, and the rest keeps its order |

## Left out

- Sessions, sockets, TLS material, process execution and the sending of HTTP requests: I/O around libraries. Redis and SNMP servers are sequences of replies.
- The plugin runtime, its bridges and the plugins; sqlguard, whose decision is an external SQL parser; the Kafka actions, which count and slice library types.
- Reading and decoding YAML and JSON: documents, configurations and plugin scans arrive decoded, mappings have string keys, and a failed read is one value.
- Error texts, warnings, logs, timeouts, summaries for listings and secret stripping. Errors that differ only in their text are one value.
- User-written regular expressions (operation_ids and `^` paths): an uninterpreted engine says what compiles and what matches; the results hold for every engine.
- RE2 outside the fragment the glob compiler emits, its size limits, and invalid UTF-8: texts are sequences of characters, so the fallback to path.Match is never reached.
- Case folding outside ASCII in lower and upper casing.
- fmt.Sprint: a parameter `show`, arbitrary except where a lemma says that it leaves strings as they are.
- NaN, infinities and rounding of floating point payload items: they are reals.
- What `cd` does with its operand, such as `-`, options and CDPATH: the results say how the line is read, not which directory it ends in.
- Reading the plugin directories: a scan arrives as the plugins that loaded. Of the checks on one plugin only the blank name is stated (Gateway.IsRealScan).
- Dispatch and the tool count, like the listing, read the two stores one after the other; only for the listing is a load in between modelled.
- The shell beyond quoted words, assignments and and-lists: expansions, reserved words, aliases, redirections and word splitting; a line that leaves the fragment does not parse.
- Locks and goroutines: a load is a snapshot step and a commit step, each atomic; SNMP requests interleave action by action.
- Redis commands besides SCAN, HSCAN, LRANGE and the ZRANGE sample; database selection and key validation.
- Input schemas in the listing: entries are names and descriptions. The branches of the server for a missing tool registry: it always has one.
- Discovery.Match: one method over a matcher datatype stands for the Match methods of the separate Go types.
- ToolCalls.RequestDeterminesArguments: an explicit null for an expanded body property is sent as null, so calls that agree on all supplied arguments may still send different bodies; only the direction from requests to arguments is stated.
- PathTemplate.EndSlashesDoNotMatter: slashes inside a path are not normalized by the code, and nothing is claimed about them.
