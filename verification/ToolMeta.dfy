/** Tools generated from operations: their input schema, and what a call does with its arguments. */
module ToolMeta {
  import opened Text
  import opened Wrappers
  import opened Json
  import opened Parameters
  import opened PathTemplate

  datatype RequestBody =
    | Expanded(required: bool, properties: Fields, requiredProps: seq<string>)
    | Whole(required: bool, schema: Fields)

  /** Why an operation becomes no tool. A repeated operationId makes the whole load fail. */
  datatype SkipReason = NotSkipped | DuplicateID | BodyIsReference | NoJSONMedia | UnresolvableSchema

  datatype Operation = Operation(
    apiName: string, operationID: string, method_: string, path: string, tags: seq<string>,
    summary: string, description: string, parameters: seq<Parameter>, body: Option<RequestBody>,
    skipReason: SkipReason)

  datatype BodyMode = NoBody | Expand | Single

  datatype ToolMeta = ToolMeta(
    name: string, description: string, properties: Fields, required: seq<string>,
    apiName: string, method_: string, path: string,
    paramIns: map<string, Location>, bodyMode: BodyMode, bodyRequired: bool, bodyPropNames: set<string>)

  // ---------- Building a tool ----------

  function ParamProperty(p: Parameter): Json
  {
    var described := if p.description != "" then p.schema["description" := Str(p.description)] else p.schema;
    Object(if "type" in described then described else described["type" := Str("string")])
  }

  function BodyProperty(schema: Json): Json
  {
    if schema.Object? then schema else Object(map["type" := Str("string")])
  }

  /** Later parameters replace earlier ones of the same name. */
  function ParamProperties(ps: seq<Parameter>): (m: Fields)
    ensures forall k :: k in m <==> exists i | 0 <= i < |ps| :: ps[i].name == k
  {
    if ps == [] then map[]
    else
      var n := |ps| - 1;
      assert forall i | 0 <= i < n :: ps[i] == ps[..n][i];
      ParamProperties(ps[..n])[ps[n].name := ParamProperty(ps[n])]
  }

  function ParamLocations(ps: seq<Parameter>): (m: map<string, Location>)
    ensures forall k :: k in m <==> exists i | 0 <= i < |ps| :: ps[i].name == k
    ensures forall k | k in m :: exists i | 0 <= i < |ps| :: ps[i].name == k && ps[i].location == m[k]
  {
    if ps == [] then map[]
    else
      var n := |ps| - 1;
      assert forall i | 0 <= i < n :: ps[i] == ps[..n][i];
      ParamLocations(ps[..n])[ps[n].name := ps[n].location]
  }

  function RequiredParams(ps: seq<Parameter>): (names: seq<string>)
    ensures forall x :: x in names <==> exists i | 0 <= i < |ps| :: ps[i].required && ps[i].name == x
  {
    if ps == [] then []
    else
      var n := |ps| - 1;
      assert forall i | 0 <= i < n :: ps[i] == ps[..n][i];
      RequiredParams(ps[..n]) + if ps[n].required then [ps[n].name] else []
  }

  function Filter(names: seq<string>, keep: set<string>): (kept: seq<string>)
    ensures forall x :: x in kept <==> x in names && x in keep
  {
    if names == [] then []
    else
      var n := |names| - 1;
      assert names == names[..n] + [names[n]];
      Filter(names[..n], keep) + if names[n] in keep then [names[n]] else []
  }

  /** First occurrences only. */
  function Unique(names: seq<string>): (out: seq<string>)
    ensures forall x :: x in out <==> x in names
    ensures forall i, j | 0 <= i < j < |out| :: out[i] != out[j]
  {
    if names == [] then []
    else
      var n := |names| - 1;
      assert names == names[..n] + [names[n]];
      var init := Unique(names[..n]);
      if names[n] in init then init else init + [names[n]]
  }

  /** Body properties that no parameter shadows. */
  function FreeBodyProps(op: Operation): set<string>
  {
    match op.body
    case Some(Expanded(_, properties, _)) => properties.Keys - ParamProperties(op.parameters).Keys
    case _ => {}
  }

  /** The declared properties together with the body properties in `taken`. */
  function WithBody(declared: Fields, props: Fields, taken: set<string>): Fields
    requires taken <= props.Keys
  {
    declared + map k | k in taken :: BodyProperty(props[k])
  }

  lemma WithBodyGrows(declared: Fields, props: Fields, taken: set<string>, name: string)
    requires taken <= props.Keys && name in props
    ensures WithBody(declared, props, taken + {name}) == WithBody(declared, props, taken)[name := BodyProperty(props[name])]
    ensures WithBody(declared, props, taken).Keys == declared.Keys + taken
  {
  }

  function RequiredBody(op: Operation): seq<string>
  {
    match op.body
    case None => []
    case Some(Expanded(_, _, names)) => Filter(names, FreeBodyProps(op))
    case Some(Whole(required, _)) => if required then ["body"] else []
  }

  function Description(op: Operation): string
  {
    if op.summary != "" then op.summary
    else if op.description != "" then op.description
    else op.method_ + " " + op.path
  }

  function BuildMeta(prefix: string, op: Operation): ToolMeta
  {
    var ps, free := op.parameters, FreeBodyProps(op);
    var properties := match op.body
      case None => ParamProperties(ps)
      case Some(Expanded(_, props, _)) => WithBody(ParamProperties(ps), props, free)
      case Some(Whole(_, schema)) => ParamProperties(ps)["body" := Object(schema)];
    var paramIns := if op.body.Some? && op.body.value.Whole? then ParamLocations(ps)["body" := InBody]
                    else ParamLocations(ps);
    ToolMeta(prefix + op.operationID, Description(op), properties, Unique(RequiredParams(ps) + RequiredBody(op)),
             op.apiName, op.method_, op.path, paramIns,
             if op.body.None? then NoBody else if op.body.value.Expanded? then Expand else Single,
             op.body.Some? && op.body.value.required, free)
  }

  method UniqueStrings(names: seq<string>) returns (out: seq<string>)
    ensures out == Unique(names)
  {
    var seen := {};
    out := [];
    for i := 0 to |names|
      invariant out == Unique(names[..i])
      invariant forall x :: x in seen <==> x in out
    {
      assert names[..i + 1][..i] == names[..i];
      if names[i] !in seen {
        seen := seen + {names[i]};
        out := out + [names[i]];
      }
    }
    assert names[..|names|] == names;
  }

  /** The first loop of buildToolMeta. */
  method DeclareParameters(ps: seq<Parameter>)
    returns (properties: Fields, required: seq<string>, paramIns: map<string, Location>)
    ensures properties == ParamProperties(ps) && required == RequiredParams(ps) && paramIns == ParamLocations(ps)
  {
    properties, required, paramIns := map[], [], map[];
    for i := 0 to |ps|
      invariant properties == ParamProperties(ps[..i])
      invariant required == RequiredParams(ps[..i])
      invariant paramIns == ParamLocations(ps[..i])
    {
      var p := ps[i];
      assert ps[..i + 1][..i] == ps[..i];
      var prop := p.schema;
      if p.description != "" {
        prop := prop["description" := Str(p.description)];
      }
      if "type" !in prop {
        prop := prop["type" := Str("string")];
      }
      properties := properties[p.name := Object(prop)];
      paramIns := paramIns[p.name := p.location];
      if p.required {
        required := required + [p.name];
      }
    }
    assert ps[..|ps|] == ps;
  }

  /** The first expanded-body loop: every property no parameter has claimed, in any map order. */
  method DeclareBody(declared: Fields, props: Fields) returns (properties: Fields, taken: set<string>)
    ensures taken == props.Keys - declared.Keys
    ensures properties == WithBody(declared, props, taken)
  {
    properties, taken := declared, {};
    var pending := props.Keys;
    while pending != {}
      invariant pending <= props.Keys && taken <= props.Keys
      invariant forall k :: k in taken <==> k in props && k !in pending && k !in declared
      invariant properties == WithBody(declared, props, taken)
      decreases |pending|
    {
      var name :| name in pending;
      pending := pending - {name};
      WithBodyGrows(declared, props, taken, name);
      if name !in properties {
        properties := properties[name := BodyProperty(props[name])];
        taken := taken + {name};
      }
    }
  }

  /** The second expanded-body loop: the required names that were declared. */
  method RequireBody(names: seq<string>, taken: set<string>) returns (required: seq<string>)
    ensures required == Filter(names, taken)
  {
    required := [];
    for i := 0 to |names|
      invariant required == Filter(names[..i], taken)
    {
      assert names[..i + 1][..i] == names[..i];
      if names[i] in taken {
        required := required + [names[i]];
      }
    }
    assert names[..|names|] == names;
  }

  method BuildToolMeta(prefix: string, op: Operation) returns (meta: ToolMeta)
    ensures meta == BuildMeta(prefix, op)
  {
    var desc := op.summary;
    if desc == "" {
      desc := op.description;
    }
    if desc == "" {
      desc := op.method_ + " " + op.path;
    }
    var properties, required, paramIns := DeclareParameters(op.parameters);
    var bodyMode, bodyProps, bodyRequired := NoBody, {}, [];
    match op.body {
      case None =>
      case Some(Expanded(_, props, names)) =>
        bodyMode := Expand;
        properties, bodyProps := DeclareBody(properties, props);
        bodyRequired := RequireBody(names, bodyProps);
      case Some(Whole(must, schema)) =>
        bodyMode := Single;
        properties := properties["body" := Object(schema)];
        paramIns := paramIns["body" := InBody];
        if must {
          bodyRequired := ["body"];
        }
    }
    required := UniqueStrings(required + bodyRequired);
    meta := ToolMeta(prefix + op.operationID, desc, properties, required, op.apiName, op.method_, op.path,
                     paramIns, bodyMode, op.body.Some? && op.body.value.required, bodyProps);
  }

  /**
   * The input schema is consistent: required names are distinct and declared, and every declared name
   * comes from exactly one of the parameters (or the single body) and the expanded body properties.
   */
  lemma SchemaIsConsistent(prefix: string, op: Operation)
    ensures var m := BuildMeta(prefix, op);
            && (forall i, j | 0 <= i < j < |m.required| :: m.required[i] != m.required[j])
            && (forall x | x in m.required :: x in m.properties)
            && m.properties.Keys == m.paramIns.Keys + m.bodyPropNames
            && m.paramIns.Keys !! m.bodyPropNames
  {
  }

  // ---------- What a built tool says ----------

  predicate IsParamName(ps: seq<Parameter>, x: string)
  {
    exists i | 0 <= i < |ps| :: ps[i].name == x
  }

  /** Index `i` holds the last parameter of its name. */
  predicate IsLastNamed(ps: seq<Parameter>, i: nat)
  {
    i < |ps| && forall j | i < j < |ps| :: ps[j].name != ps[i].name
  }

  /** The schema of a parameter, with its description if it has one and a type in any case. */
  ghost predicate IsParamSchema(prop: Json, p: Parameter)
  {
    && prop.Object?
    && (forall k | k != "description" && k != "type" ::
          (k in prop.fields <==> k in p.schema) && (k in p.schema ==> prop.fields[k] == p.schema[k]))
    && "type" in prop.fields
    && prop.fields["type"] == (if "type" in p.schema then p.schema["type"] else Str("string"))
    && (if p.description != "" then "description" in prop.fields && prop.fields["description"] == Str(p.description)
        else ("description" in prop.fields <==> "description" in p.schema)
             && ("description" in p.schema ==> prop.fields["description"] == p.schema["description"]))
  }

  lemma ParamPropertyMeans(p: Parameter)
    ensures IsParamSchema(ParamProperty(p), p)
  {
  }

  lemma {:induction false} LastSchemaCounts(ps: seq<Parameter>, i: nat)
    requires IsLastNamed(ps, i)
    ensures ps[i].name in ParamProperties(ps) && ParamProperties(ps)[ps[i].name] == ParamProperty(ps[i])
  {
    var n := |ps| - 1;
    assert ParamProperties(ps) == ParamProperties(ps[..n])[ps[n].name := ParamProperty(ps[n])];
    if i < n {
      LastIsLastBefore(ps, i);
      LastSchemaCounts(ps[..n], i);
    }
  }

  lemma {:induction false} LastLocationCounts(ps: seq<Parameter>, i: nat)
    requires IsLastNamed(ps, i)
    ensures ps[i].name in ParamLocations(ps) && ParamLocations(ps)[ps[i].name] == ps[i].location
  {
    var n := |ps| - 1;
    assert ParamLocations(ps) == ParamLocations(ps[..n])[ps[n].name := ps[n].location];
    if i < n {
      LastIsLastBefore(ps, i);
      LastLocationCounts(ps[..n], i);
    }
  }

  lemma LastIsLastBefore(ps: seq<Parameter>, i: nat)
    requires IsLastNamed(ps, i) && i < |ps| - 1
    ensures IsLastNamed(ps[..|ps| - 1], i) && ps[..|ps| - 1][i] == ps[i] && ps[|ps| - 1].name != ps[i].name
  {
  }

  ghost predicate IsRequiredParam(ps: seq<Parameter>, x: string)
  {
    exists i | 0 <= i < |ps| :: ps[i].required && ps[i].name == x
  }

  /** The name is a property of an expanded body that no parameter shadows. */
  ghost predicate IsBodyProp(op: Operation, x: string)
  {
    op.body.Some? && op.body.value.Expanded? && x in op.body.value.properties && !IsParamName(op.parameters, x)
  }

  predicate IsWholeBody(op: Operation, x: string)
  {
    op.body.Some? && op.body.value.Whole? && x == "body"
  }

  /** Exactly these are required: required parameters, required free body properties, a required whole body. */
  lemma RequiredMeans(prefix: string, op: Operation, x: string)
    ensures x in BuildMeta(prefix, op).required <==>
              || IsRequiredParam(op.parameters, x)
              || (IsBodyProp(op, x) && x in op.body.value.requiredProps)
              || (IsWholeBody(op, x) && op.body.value.required)
  {
  }

  /** Exactly these are declared: parameters, free body properties, a whole body. */
  lemma PropertiesMean(prefix: string, op: Operation, x: string)
    ensures var m := BuildMeta(prefix, op);
            && (x in m.properties <==> IsParamName(op.parameters, x) || IsBodyProp(op, x) || IsWholeBody(op, x))
            && (x in m.bodyPropNames <==> IsBodyProp(op, x))
            && (x in m.paramIns <==> IsParamName(op.parameters, x) || IsWholeBody(op, x))
            && (IsWholeBody(op, x) ==> m.properties[x] == Object(op.body.value.schema) && m.paramIns[x] == InBody)
            && (IsBodyProp(op, x) ==>
                  var schema := op.body.value.properties[x];
                  m.properties[x] == if schema.Object? then schema else Object(map["type" := Str("string")]))
  {
    assert IsParamName(op.parameters, x) <==> x in ParamProperties(op.parameters);
  }

  /** A declared parameter has the schema and the location of its last declaration. */
  lemma ParameterMeans(prefix: string, op: Operation, i: nat)
    requires IsLastNamed(op.parameters, i) && !IsWholeBody(op, op.parameters[i].name)
    ensures var m, p := BuildMeta(prefix, op), op.parameters[i];
            && p.name in m.properties && IsParamSchema(m.properties[p.name], p)
            && p.name in m.paramIns && m.paramIns[p.name] == p.location
  {
    var p := op.parameters[i];
    LastSchemaCounts(op.parameters, i);
    LastLocationCounts(op.parameters, i);
    ParamPropertyMeans(p);
    ParameterIsKept(prefix, op, p.name);
  }

  /** Neither kind of body takes the place of a parameter, except for `body` itself. */
  lemma ParameterIsKept(prefix: string, op: Operation, x: string)
    requires x in ParamProperties(op.parameters) && x in ParamLocations(op.parameters) && !IsWholeBody(op, x)
    ensures var m := BuildMeta(prefix, op);
            && x in m.properties && m.properties[x] == ParamProperties(op.parameters)[x]
            && x in m.paramIns && m.paramIns[x] == ParamLocations(op.parameters)[x]
  {
  }

  /** What is taken over from the operation, and the description: the first of summary, description, method and path. */
  lemma MetaMeans(prefix: string, op: Operation)
    ensures var m := BuildMeta(prefix, op);
            && m.name == prefix + op.operationID
            && m.apiName == op.apiName && m.method_ == op.method_ && m.path == op.path
            && (m.bodyMode.NoBody? <==> op.body.None?)
            && (m.bodyMode.Single? <==> op.body.Some? && op.body.value.Whole?)
            && (m.bodyRequired <==> op.body.Some? && op.body.value.required)
            && (op.summary != "" ==> m.description == op.summary)
            && (op.summary == "" && op.description != "" ==> m.description == op.description)
            && (op.summary == op.description == "" ==> m.description == op.method_ + " " + op.path)
  {
  }

  /** Unique lists names as they first occur: what comes after a prefix never changes its list. */
  lemma {:induction false} UniqueKeepsOrder(names: seq<string>, k: nat)
    requires k <= |names|
    ensures Unique(names[..k]) <= Unique(names)
  {
    var n := |names|;
    if k == n {
      assert names[..k] == names;
    } else {
      UniqueKeepsOrder(names[..n - 1], k);
      assert names[..n - 1][..k] == names[..k];
    }
  }

  // ---------- Calling a tool ----------

  type Args = map<string, Json>

  predicate IsSupplied(args: Args, name: string)
  {
    name in args && args[name] != Null
  }

  /** A required argument is there, and not blank when it goes into the path. */
  predicate IsAccepted(tool: ToolMeta, args: Args, name: string)
  {
    && IsSupplied(args, name)
    && !(args[name].Str? && TrimSpace(args[name].s) == "" && name in tool.paramIns && tool.paramIns[name] == InPath)
  }

  ghost predicate IsValidCall(tool: ToolMeta, args: Args)
  {
    forall name | name in tool.required :: IsAccepted(tool, args, name)
  }

  /** Refused are exactly calls that lack a required argument, give it nil, or leave one for the path blank. */
  lemma RefusesExactly(tool: ToolMeta, args: Args)
    ensures !IsValidCall(tool, args) <==>
              exists name | name in tool.required ::
                || name !in args
                || args[name] == Null
                || (args[name].Str? && (forall c | c in args[name].s :: IsSpace(c))
                    && name in tool.paramIns && tool.paramIns[name] == InPath)
  {
    forall name | name in args && args[name].Str?
      ensures TrimSpace(args[name].s) == "" <==> forall c | c in args[name].s :: IsSpace(c)
    {
      BlankMeans(args[name].s);
    }
  }

  method ValidateArgs(tool: ToolMeta, args: Args) returns (ok: bool)
    ensures ok <==> IsValidCall(tool, args)
  {
    for i := 0 to |tool.required|
      invariant forall k | 0 <= k < i :: IsAccepted(tool, args, tool.required[k])
    {
      var name := tool.required[i];
      assert name in tool.required;
      if name !in args || args[name] == Null {
        return false;
      }
      if args[name].Str? && TrimSpace(args[name].s) == "" && name in tool.paramIns && tool.paramIns[name] == InPath {
        assert !IsAccepted(tool, args, name);
        return false;
      }
    }
    return true;
  }

  /** fmt.Sprint of the supplied arguments. */
  function Shown(args: Args, show: Json -> string): map<string, string>
  {
    map k | k in args && args[k] != Null :: show(args[k])
  }

  /** Every placeholder of the template has an argument. */
  ghost predicate CanFill(template: string, args: Args)
  {
    forall x | x in Placeholders(template) :: IsSupplied(args, x)
  }

  /** The template with each name in braces replaced by the text of its argument. */
  ghost predicate IsPathFor(template: string, args: Args, show: Json -> string, path: string)
  {
    var segs := Split(template, SLASH);
    exists parts: seq<string> ::
      && |parts| == |segs| && path == Join(parts, SLASH)
      && forall i | 0 <= i < |segs| ::
           if IsBraced(segs[i]) then exists name :: segs[i] == "{" + name + "}" && IsSupplied(args, name) && parts[i] == show(args[name])
           else parts[i] == segs[i]
  }

  lemma FilledIsPathFor(template: string, args: Args, show: Json -> string)
    requires CanFill(template, args)
    ensures IsPathFor(template, args, show, Filled(template, Shown(args, show)))
  {
    var segs := Split(template, SLASH);
    var parts := FillSegs(segs, Shown(args, show));
    forall i | 0 <= i < |segs|
      ensures if IsBraced(segs[i]) then exists name :: segs[i] == "{" + name + "}" && IsSupplied(args, name) && parts[i] == show(args[name])
              else parts[i] == segs[i]
    {
      TemplateSegMeans(segs[i]);
      if IsTemplateSeg(segs[i]) {
        assert segs[i] in segs && SegName(segs[i]) in Placeholders(template);
      }
    }
  }

  /** fillPath: overwrites the template segments one by one, failing at the first without an argument. */
  method FillPath(template: string, args: Args, show: Json -> string) returns (r: Result<string>)
    ensures r.Ok? <==> CanFill(template, args)
    ensures r.Ok? ==> r.value == Filled(template, Shown(args, show))
    ensures r.Ok? ==> IsPathFor(template, args, show, r.value)
  {
    var original := Split(template, SLASH);
    var segs := original;
    for i := 0 to |segs|
      invariant |segs| == |original|
      invariant segs[i..] == original[i..]
      invariant forall k | 0 <= k < i && IsTemplateSeg(original[k]) :: IsSupplied(args, SegName(original[k]))
      invariant forall k | 0 <= k < i :: segs[k] == FillSeg(original[k], Shown(args, show))
    {
      assert segs[i] == segs[i..][0] == original[i];
      if IsTemplateSeg(segs[i]) {
        var name := SegName(segs[i]);
        assert original[i] in original && name in Placeholders(template);
        if name !in args || args[name] == Null {
          return Err;
        }
        segs := segs[i := show(args[name])];
      }
      assert segs[i + 1..] == original[i + 1..];
    }
    assert segs == FillSegs(original, Shown(args, show));
    FilledIsPathFor(template, args, show);
    return Ok(Join(segs, SLASH));
  }

  datatype Request = Request(query: map<string, string>, headers: map<string, string>, body: Option<Json>)

  /** The supplied arguments among `names` that are declared at `location`. */
  function ArgsAt(tool: ToolMeta, args: Args, show: Json -> string, location: Location, names: set<string>): map<string, string>
  {
    map k | k in names && k in tool.paramIns && tool.paramIns[k] == location && IsSupplied(args, k) :: show(args[k])
  }

  function RoutedBody(tool: ToolMeta, args: Args): Option<Json>
  {
    match tool.bodyMode
    case NoBody => None
    case Single => if IsSupplied(args, "body") then Some(args["body"]) else None
    case Expand =>
      var obj := map k | k in tool.bodyPropNames && k in args :: args[k];
      if obj != map[] || tool.bodyRequired then Some(Object(obj)) else None
  }

  function Routed(tool: ToolMeta, args: Args, show: Json -> string): Request
  {
    Request(ArgsAt(tool, args, show, InQuery, tool.paramIns.Keys),
            ArgsAt(tool, args, show, InHeader, tool.paramIns.Keys),
            RoutedBody(tool, args))
  }

  /** The names that are declared at the location and supplied, each with the text of its argument. */
  ghost predicate AreArgsAt(tool: ToolMeta, args: Args, show: Json -> string, location: Location, m: map<string, string>)
  {
    forall k ::
      && (k in m <==> k in tool.paramIns && tool.paramIns[k] == location && k in args && args[k] != Null)
      && (k in m ==> m[k] == show(args[k]))
  }

  /** The fields are the arguments named like body properties, unchanged. */
  ghost predicate AreBodyFields(tool: ToolMeta, args: Args, fields: Fields)
  {
    forall k :: (k in fields <==> k in tool.bodyPropNames && k in args) && (k in fields ==> fields[k] == args[k])
  }

  ghost predicate IsBodyFor(tool: ToolMeta, args: Args, body: Option<Json>)
  {
    match tool.bodyMode
    case NoBody => body == None
    case Single =>
      if "body" in args && args["body"] != Null then body == Some(args["body"]) else body == None
    case Expand =>
      && (body.Some? <==> tool.bodyRequired || exists k :: k in tool.bodyPropNames && k in args)
      && (body.Some? ==> body.value.Object? && AreBodyFields(tool, args, body.value.fields))
  }

  /** What a call sends besides the path. */
  ghost predicate IsRequestFor(tool: ToolMeta, args: Args, show: Json -> string, r: Request)
  {
    && AreArgsAt(tool, args, show, InQuery, r.query)
    && AreArgsAt(tool, args, show, InHeader, r.headers)
    && IsBodyFor(tool, args, r.body)
  }

  lemma RoutedMeans(tool: ToolMeta, args: Args, show: Json -> string)
    ensures IsRequestFor(tool, args, show, Routed(tool, args, show))
  {
    if tool.bodyMode.Expand? {
      var obj := map k | k in tool.bodyPropNames && k in args :: args[k];
      assert AreBodyFields(tool, args, obj);
      if k :| k in tool.bodyPropNames && k in args {
        assert k in obj;
      }
      if obj != map[] {
        var k :| k in obj;
      }
    }
  }

  lemma ArgsAtGrows(tool: ToolMeta, args: Args, show: Json -> string, location: Location, names: set<string>, name: string)
    requires name in tool.paramIns
    ensures ArgsAt(tool, args, show, location, names + {name})
         == if tool.paramIns[name] == location && IsSupplied(args, name)
            then ArgsAt(tool, args, show, location, names)[name := show(args[name])]
            else ArgsAt(tool, args, show, location, names)
  {
  }

  method RouteBody(tool: ToolMeta, args: Args) returns (body: Option<Json>)
    ensures body == RoutedBody(tool, args)
  {
    body := None;
    match tool.bodyMode {
      case NoBody =>
      case Single =>
        if "body" in args && args["body"] != Null {
          body := Some(args["body"]);
        }
      case Expand =>
        var obj := map[];
        var names := tool.bodyPropNames;
        while names != {}
          invariant names <= tool.bodyPropNames
          invariant obj == map k | k in tool.bodyPropNames - names && k in args :: args[k]
          decreases |names|
        {
          var name :| name in names;
          names := names - {name};
          if name in args {
            obj := obj[name := args[name]];
          }
        }
        assert names == {} && tool.bodyPropNames - names == tool.bodyPropNames;
        if |obj| > 0 || tool.bodyRequired {
          body := Some(Object(obj));
        }
    }
  }

  /** The routing part of Call: its loops range over maps, in any order. */
  method RouteArgs(tool: ToolMeta, args: Args, show: Json -> string) returns (r: Request)
    ensures r == Routed(tool, args, show)
    ensures IsRequestFor(tool, args, show, r)
  {
    RoutedMeans(tool, args, show);
    var query, headers := map[], map[];
    var pending := tool.paramIns.Keys;
    while pending != {}
      invariant pending <= tool.paramIns.Keys
      invariant query == ArgsAt(tool, args, show, InQuery, tool.paramIns.Keys - pending)
      invariant headers == ArgsAt(tool, args, show, InHeader, tool.paramIns.Keys - pending)
      decreases |pending|
    {
      var name :| name in pending;
      ghost var done := tool.paramIns.Keys - pending;
      ArgsAtGrows(tool, args, show, InQuery, done, name);
      ArgsAtGrows(tool, args, show, InHeader, done, name);
      pending := pending - {name};
      assert tool.paramIns.Keys - pending == done + {name};
      if tool.paramIns[name] != InBody && name in args && args[name] != Null {
        var s := show(args[name]);
        match tool.paramIns[name] {
          case InQuery => query := query[name := s];
          case InHeader => headers := headers[name := s];
          case _ =>
        }
      }
    }
    assert tool.paramIns.Keys - pending == tool.paramIns.Keys;
    var body := RouteBody(tool, args);
    r := Request(query, headers, body);
  }
}
