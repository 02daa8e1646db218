/** What holds of every call of a generated tool. */
module ToolCalls {
  import opened Text
  import opened Wrappers
  import opened Json
  import opened Parameters
  import opened PathTemplate
  import opened ToolMeta

  /** The locations mergeParameters lets through. */
  predicate HasKnownLocations(op: Operation)
  {
    forall i | 0 <= i < |op.parameters| :: op.parameters[i].location != InBody
  }

  /** A call that gives every name in `names` a plain value. */
  function PlainArgs(names: set<string>): Args
  {
    map k | k in names :: Str("v")
  }

  function Required(tool: ToolMeta): set<string>
  {
    set x | x in tool.required
  }

  lemma PlainArgsAreValid(tool: ToolMeta, names: set<string>)
    requires Required(tool) <= names
    ensures IsValidCall(tool, PlainArgs(names))
  {
    TrimNoop("v", IsSpace);
  }

  /**
   * Filling the path of a validated call cannot fail exactly when every placeholder is a required
   * argument.
   */
  lemma ValidCallsFill(tool: ToolMeta)
    ensures (forall args | IsValidCall(tool, args) :: CanFill(tool.path, args))
       <==> Placeholders(tool.path) <= Required(tool)
  {
    if Placeholders(tool.path) <= Required(tool) {
      forall args, x | IsValidCall(tool, args) && x in Placeholders(tool.path) ensures IsSupplied(args, x) {
        assert x in Required(tool);
        assert IsAccepted(tool, args, x);
      }
    } else {
      PlainArgsAreValid(tool, Required(tool));
      var x :| x in Placeholders(tool.path) && x !in Required(tool);
      assert !IsSupplied(PlainArgs(Required(tool)), x);
    }
  }

  /** An operation whose one placeholder is declared as an optional query parameter. */
  const MISDECLARED := Operation("s", "t", "GET", "/{x}", [], "", "", [Parameter("x", InQuery, false, "", DEFAULT_SCHEMA)],
                                 None, NotSkipped)

  lemma MisdeclaredPlaceholder()
    ensures Placeholders(MISDECLARED.path) == {"x"}
  {
    var parts := ["", "{x}"];
    assert parts[1..] == ["{x}"] && Join(parts, SLASH) == "/{x}";
    SplitJoin(parts, SLASH);
    assert SegName("{x}") == "x" && IsTemplateSeg("{x}") && !IsTemplateSeg("");
  }

  /** A parameter that is not required, alone. */
  lemma OneOptionalParameter(p: Parameter)
    requires !p.required
    ensures RequiredParams([p]) == [] && ParamLocations([p]) == map[p.name := p.location]
  {
    assert [p][..0] == [];
    assert RequiredParams([p]) == RequiredParams([p][..0]) + [];
    assert ParamLocations([p]) == ParamLocations([p][..0])[p.name := p.location];
  }

  /**
   * A validated call of its tool that lacks the path argument, and one whose argument reaches two places.
   */
  lemma MisdeclaredCallFails(prefix: string, show: Json -> string)
    ensures var tool := BuildMeta(prefix, MISDECLARED);
            && IsValidCall(tool, map[]) && !CanFill(tool.path, map[])
            && var args := map["x" := Str("v")];
               && IsValidCall(tool, args) && CanFill(tool.path, args)
               && Reaches(tool, args, show, "x", ToPath) && Reaches(tool, args, show, "x", ToQuery)
  {
    var tool := BuildMeta(prefix, MISDECLARED);
    MisdeclaredPlaceholder();
    OneOptionalParameter(MISDECLARED.parameters[0]);
    assert MISDECLARED.parameters == [MISDECLARED.parameters[0]];
    assert tool.required == [] && tool.paramIns == map["x" := InQuery];
    assert !IsSupplied(map[], "x");
    assert "x" in ArgsAt(tool, map["x" := Str("v")], show, InQuery, tool.paramIns.Keys);
  }

  /** A placeholder that the document declares as a path parameter, at either level, is required. */
  lemma DeclaredPlaceholdersFill(prefix: string, op: Operation, pathLevel: seq<RawParameter>, opLevel: seq<RawParameter>)
    requires op.parameters == Merged(pathLevel + opLevel)
    requires forall x | x in Placeholders(op.path) ::
               exists p :: p in pathLevel + opLevel && IsKept(p) && LocationOf(p) == Some(InPath) && p.name == x
    ensures forall args | IsValidCall(BuildMeta(prefix, op), args) :: CanFill(op.path, args)
  {
    var ps := pathLevel + opLevel;
    forall x | x in Placeholders(op.path) ensures x in Required(BuildMeta(prefix, op)) {
      MergedIsUnique(ps);
      var p :| p in ps && IsKept(p) && LocationOf(p) == Some(InPath) && p.name == x;
      var q :| q in Merged(ps) && q.location == InPath && q.name == p.name;
      assert q.required;
      assert x in RequiredParams(op.parameters);
    }
    ValidCallsFill(BuildMeta(prefix, op));
  }

  // ---------- Routing ----------

  datatype Destination = ToPath | ToQuery | ToHeaders | ToBody

  /** The argument `name` becomes part of this piece of the request. */
  predicate Reaches(tool: ToolMeta, args: Args, show: Json -> string, name: string, d: Destination)
  {
    var r := Routed(tool, args, show);
    match d
    case ToPath => name in Placeholders(tool.path)
    case ToQuery => name in r.query
    case ToHeaders => name in r.headers
    case ToBody =>
      match tool.bodyMode
      case NoBody => false
      case Single => name == "body" && r.body.Some?
      case Expand => r.body.Some? && r.body.value.Object? && name in r.body.value.fields && name in tool.bodyPropNames
  }

  ghost predicate ReachesOne(tool: ToolMeta, args: Args, show: Json -> string, name: string)
  {
    exists d :: Reaches(tool, args, show, name, d) && forall d' :: Reaches(tool, args, show, name, d') ==> d' == d
  }

  ghost predicate ReachesNone(tool: ToolMeta, args: Args, show: Json -> string, name: string)
  {
    forall d :: !Reaches(tool, args, show, name, d)
  }

  /** Every supplied argument that is declared reaches one piece of the request, and no other argument any. */
  ghost predicate RoutesOnce(tool: ToolMeta, args: Args, show: Json -> string)
  {
    forall name | IsSupplied(args, name) ::
      if name in tool.properties then ReachesOne(tool, args, show, name) else ReachesNone(tool, args, show, name)
  }

  /** The names whose declared location is the path. */
  function PathNames(tool: ToolMeta): set<string>
  {
    set x | x in tool.paramIns && tool.paramIns[x] == InPath
  }

  /** What buildToolMeta guarantees about the declared names. */
  ghost predicate IsWellFormed(t: ToolMeta)
  {
    && t.properties.Keys == t.paramIns.Keys + t.bodyPropNames
    && t.paramIns.Keys !! t.bodyPropNames
    && (t.bodyPropNames != {} ==> t.bodyMode.Expand?)
    && forall x :: x in t.paramIns && t.paramIns[x] == InBody <==> t.bodyMode.Single? && x == "body"
  }

  lemma BuiltToolsAreWellFormed(prefix: string, op: Operation)
    requires HasKnownLocations(op)
    ensures IsWellFormed(BuildMeta(prefix, op))
  {
    var t := BuildMeta(prefix, op);
    assert forall x | x in ParamLocations(op.parameters) ::
        ParamLocations(op.parameters)[x] != InBody;
    assert t.properties.Keys == t.paramIns.Keys + t.bodyPropNames;
  }

  /** Where a supplied argument goes besides the path: by its location, or into the body. */
  lemma Destinations(t: ToolMeta, args: Args, show: Json -> string, name: string)
    requires IsWellFormed(t) && IsSupplied(args, name)
    ensures Reaches(t, args, show, name, ToQuery) <==> name in t.paramIns && t.paramIns[name] == InQuery
    ensures Reaches(t, args, show, name, ToHeaders) <==> name in t.paramIns && t.paramIns[name] == InHeader
    ensures Reaches(t, args, show, name, ToBody)
       <==> name in t.bodyPropNames || (name in t.paramIns && t.paramIns[name] == InBody)
  {
    if name in t.bodyPropNames {
      var obj := map k | k in t.bodyPropNames && k in args :: args[k];
      assert name in obj && obj != map[];
    }
  }

  /**
   * Arguments are routed exactly once, whatever an accepted call supplies, exactly when the template's
   * placeholders are the names located in the path.
   */
  lemma ArgumentsRouteOnce(t: ToolMeta, show: Json -> string)
    requires IsWellFormed(t)
    ensures (forall args | IsValidCall(t, args) && CanFill(t.path, args) :: RoutesOnce(t, args, show))
       <==> Placeholders(t.path) == PathNames(t)
  {
    if Placeholders(t.path) == PathNames(t) {
      forall args, name | IsSupplied(args, name)
        ensures if name in t.properties then ReachesOne(t, args, show, name) else ReachesNone(t, args, show, name)
      {
        OneDestination(t, args, show, name);
      }
    } else {
      var x :| (x in Placeholders(t.path)) != (x in PathNames(t));
      var args := PlainArgs(Required(t) + Placeholders(t.path) + {x});
      PlainArgsAreValid(t, Required(t) + Placeholders(t.path) + {x});
      assert IsSupplied(args, x) && CanFill(t.path, args);
      Misrouted(t, args, show, x);
    }
  }

  lemma OneDestination(t: ToolMeta, args: Args, show: Json -> string, name: string)
    requires IsWellFormed(t) && IsSupplied(args, name)
    requires Placeholders(t.path) == PathNames(t)
    ensures if name in t.properties then ReachesOne(t, args, show, name) else ReachesNone(t, args, show, name)
  {
    Destinations(t, args, show, name);
    assert Reaches(t, args, show, name, ToPath) <==> name in t.paramIns && t.paramIns[name] == InPath;
    if name in t.properties {
      var d := if name in t.bodyPropNames || t.paramIns[name] == InBody then ToBody
               else if t.paramIns[name] == InQuery then ToQuery
               else if t.paramIns[name] == InHeader then ToHeaders
               else ToPath;
      assert Reaches(t, args, show, name, d);
      forall d' | Reaches(t, args, show, name, d') ensures d' == d {
      }
    }
  }

  lemma Misrouted(t: ToolMeta, args: Args, show: Json -> string, x: string)
    requires IsWellFormed(t) && IsSupplied(args, x)
    requires (x in Placeholders(t.path)) != (x in PathNames(t))
    ensures !RoutesOnce(t, args, show)
  {
    Destinations(t, args, show, x);
    if x in Placeholders(t.path) {
      assert Reaches(t, args, show, x, ToPath);
      if x in t.properties {
        var d := if x in t.bodyPropNames || t.paramIns[x] == InBody then ToBody
                 else if t.paramIns[x] == InQuery then ToQuery
                 else ToHeaders;
        assert Reaches(t, args, show, x, d);
      }
    } else {
      assert ReachesNone(t, args, show, x);
    }
  }

  /**
   * What a document has to do for that: use no name at two locations, name no parameter `body` beside an
   * unexpanded body, and declare as path parameters exactly the placeholders of the path.
   */
  lemma WellDeclaredOperationsRouteOnce(prefix: string, op: Operation, show: Json -> string, args: Args)
    requires HasKnownLocations(op)
    requires forall i, j | 0 <= i < j < |op.parameters| :: op.parameters[i].name != op.parameters[j].name
    requires op.body.Some? && op.body.value.Whole? ==> forall p | p in op.parameters :: p.name != "body"
    requires forall x :: x in Placeholders(op.path) <==>
               exists i | 0 <= i < |op.parameters| :: op.parameters[i].name == x && op.parameters[i].location == InPath
    requires IsValidCall(BuildMeta(prefix, op), args) && CanFill(op.path, args)
    ensures RoutesOnce(BuildMeta(prefix, op), args, show)
  {
    DeclaredPathNames(prefix, op);
    BuiltToolsAreWellFormed(prefix, op);
    ArgumentsRouteOnce(BuildMeta(prefix, op), show);
  }

  lemma DeclaredPathNames(prefix: string, op: Operation)
    requires forall i, j | 0 <= i < j < |op.parameters| :: op.parameters[i].name != op.parameters[j].name
    requires op.body.Some? && op.body.value.Whole? ==> forall p | p in op.parameters :: p.name != "body"
    ensures forall x :: x in PathNames(BuildMeta(prefix, op)) <==>
              exists i | 0 <= i < |op.parameters| :: op.parameters[i].name == x && op.parameters[i].location == InPath
  {
    forall x ensures x in PathNames(BuildMeta(prefix, op)) <==>
              exists i | 0 <= i < |op.parameters| :: op.parameters[i].name == x && op.parameters[i].location == InPath
    {
      PathNamesOf(prefix, op, x);
      PathParameterIs(op.parameters, op.body.Some? && op.body.value.Whole?, x);
    }
  }

  lemma DistinctLocations(ps: seq<Parameter>)
    requires forall i, j | 0 <= i < j < |ps| :: ps[i].name != ps[j].name
    ensures forall i | 0 <= i < |ps| :: ps[i].name in ParamLocations(ps) && ParamLocations(ps)[ps[i].name] == ps[i].location
  {
    var locations := ParamLocations(ps);
    forall i | 0 <= i < |ps| ensures ps[i].name in locations && locations[ps[i].name] == ps[i].location {
      var j :| 0 <= j < |ps| && ps[j].name == ps[i].name && ps[j].location == locations[ps[i].name];
    }
  }

  lemma PathParameterIs(ps: seq<Parameter>, whole: bool, x: string)
    requires forall i, j | 0 <= i < j < |ps| :: ps[i].name != ps[j].name
    requires whole ==> forall p | p in ps :: p.name != "body"
    ensures (x in ParamLocations(ps) && ParamLocations(ps)[x] == InPath && !(whole && x == "body")) <==>
              exists i | 0 <= i < |ps| :: ps[i].name == x && ps[i].location == InPath
  {
    DistinctLocations(ps);
    assert forall i | 0 <= i < |ps| :: ps[i] in ps;
  }

  lemma PathNamesOf(prefix: string, op: Operation, x: string)
    ensures x in PathNames(BuildMeta(prefix, op)) <==>
              && x in ParamLocations(op.parameters) && ParamLocations(op.parameters)[x] == InPath
              && !(op.body.Some? && op.body.value.Whole? && x == "body")
  {
  }

  // ---------- Nothing is lost on the way ----------

  /** What a request says about a declared argument: its value in the body, its text elsewhere. */
  predicate Agree(t: ToolMeta, a: Args, b: Args, show: Json -> string, name: string)
  {
    && (IsSupplied(a, name) <==> IsSupplied(b, name))
    && (IsSupplied(a, name) && IsSupplied(b, name) ==>
          if name in t.paramIns && t.paramIns[name] != InBody then show(a[name]) == show(b[name]) else a[name] == b[name])
  }

  lemma SameQuery(t: ToolMeta, a: Args, b: Args, show: Json -> string, name: string)
    requires name in t.paramIns && t.paramIns[name] == InQuery
    requires Routed(t, a, show).query == Routed(t, b, show).query
    ensures Agree(t, a, b, show, name)
  {
    var qa, qb := Routed(t, a, show).query, Routed(t, b, show).query;
    assert name in qa <==> IsSupplied(a, name);
    assert name in qb <==> IsSupplied(b, name);
  }

  lemma SameHeader(t: ToolMeta, a: Args, b: Args, show: Json -> string, name: string)
    requires name in t.paramIns && t.paramIns[name] == InHeader
    requires Routed(t, a, show).headers == Routed(t, b, show).headers
    ensures Agree(t, a, b, show, name)
  {
    var ha, hb := Routed(t, a, show).headers, Routed(t, b, show).headers;
    assert name in ha <==> IsSupplied(a, name);
    assert name in hb <==> IsSupplied(b, name);
  }

  /** The fields an expanded body is made of. */
  function BodyFields(t: ToolMeta, args: Args): Fields
  {
    map k | k in t.bodyPropNames && k in args :: args[k]
  }

  lemma SameBody(t: ToolMeta, a: Args, b: Args, show: Json -> string, name: string)
    requires IsWellFormed(t)
    requires name in t.bodyPropNames || (name in t.paramIns && t.paramIns[name] == InBody)
    requires RoutedBody(t, a) == RoutedBody(t, b)
    ensures Agree(t, a, b, show, name)
  {
    if name in t.bodyPropNames {
      var fa, fb := BodyFields(t, a), BodyFields(t, b);
      assert RoutedBody(t, a) == if fa != map[] || t.bodyRequired then Some(Object(fa)) else None;
      assert RoutedBody(t, b) == if fb != map[] || t.bodyRequired then Some(Object(fb)) else None;
      assert fa == fb;
      assert name in a <==> name in fa;
      assert name in b <==> name in fb;
    }
  }

  lemma SamePath(t: ToolMeta, a: Args, b: Args, show: Json -> string, name: string)
    requires name in t.paramIns && t.paramIns[name] == InPath && name in Placeholders(t.path)
    requires CanFill(t.path, a) && CanFill(t.path, b)
    requires forall x | x in Placeholders(t.path) :: SLASH !in Shown(a, show)[x] && SLASH !in Shown(b, show)[x]
    requires Filled(t.path, Shown(a, show)) == Filled(t.path, Shown(b, show))
    ensures Agree(t, a, b, show, name)
  {
    FilledDeterminesValues(t.path, Shown(a, show), Shown(b, show));
    assert Shown(a, show)[name] == Shown(b, show)[name];
  }

  /**
   * Calls lose no argument: two calls of a tool that send the same path and the same request supply the
   * same declared arguments, with the same values in the body and the same text elsewhere.
   */
  lemma RequestDeterminesArguments(t: ToolMeta, a: Args, b: Args, show: Json -> string)
    requires IsWellFormed(t) && Placeholders(t.path) == PathNames(t)
    requires CanFill(t.path, a) && CanFill(t.path, b)
    requires forall x | x in Placeholders(t.path) :: SLASH !in Shown(a, show)[x] && SLASH !in Shown(b, show)[x]
    requires Filled(t.path, Shown(a, show)) == Filled(t.path, Shown(b, show))
    requires Routed(t, a, show) == Routed(t, b, show)
    ensures forall name | name in t.properties :: Agree(t, a, b, show, name)
  {
    forall name | name in t.properties ensures Agree(t, a, b, show, name) {
      if name in t.bodyPropNames || t.paramIns[name] == InBody {
        SameBody(t, a, b, show, name);
      } else if t.paramIns[name] == InQuery {
        SameQuery(t, a, b, show, name);
      } else if t.paramIns[name] == InHeader {
        SameHeader(t, a, b, show, name);
      } else {
        assert name in PathNames(t);
        SamePath(t, a, b, show, name);
      }
    }
  }

  /** fmt.Sprint leaves strings as they are. */
  ghost predicate ShowsStrings(show: Json -> string)
  {
    forall s :: show(Str(s)) == s
  }

  /**
   * The path of a validated call matches the template of its operation, for string path arguments
   * without slashes: validation has already kept blank ones out.
   */
  lemma ValidCallHitsTemplate(prefix: string, op: Operation, args: Args, show: Json -> string)
    requires ShowsStrings(show)
    requires IsValidCall(BuildMeta(prefix, op), args)
    requires forall x | x in Placeholders(op.path) ::
               x in Required(BuildMeta(prefix, op)) && x in PathNames(BuildMeta(prefix, op))
    requires forall x | x in Placeholders(op.path) && x in args :: args[x].Str? && SLASH !in args[x].s
    ensures CanFill(op.path, args)
    ensures Placeholders(op.path) <= Shown(args, show).Keys
    ensures MatchTemplateOrExact(op.path, Filled(op.path, Shown(args, show)))
  {
    var t := BuildMeta(prefix, op);
    forall x | x in Placeholders(op.path)
      ensures IsSupplied(args, x) && IsSegment(Shown(args, show)[x])
    {
      assert IsAccepted(t, args, x);
      assert TrimSpace("") == "";
    }
    FilledMatchesTemplate(op.path, Shown(args, show));
  }
}
