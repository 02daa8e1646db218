/** OpenAPI documents and the operations extracted from them. */
module Documents {
  import opened Text
  import opened Wrappers
  import opened Json
  import opened Parameters
  import opened ToolMeta

  datatype MediaType = MediaType(schema: Option<Fields>)

  datatype RawBody = RawBody(required: bool, content: map<string, MediaType>, ref: string)

  datatype RawOperation = RawOperation(
    operationID: string, tags: seq<string>, summary: string, description: string,
    parameters: seq<RawParameter>, body: Option<RawBody>)

  /** `operations` holds the methods that are present; names outside HTTP_METHODS are never looked up. */
  datatype PathItem = PathItem(parameters: seq<RawParameter>, operations: map<string, RawOperation>)

  datatype Document = Document(version: string, paths: map<string, PathItem>, schemas: Fields)

  const HTTP_METHODS: seq<string> := ["GET", "PUT", "POST", "DELETE", "OPTIONS", "HEAD", "PATCH", "TRACE"]

  /** loadDoc after decoding: an OpenAPI 3.x version is required. */
  function LoadDoc(decoded: Option<Document>): (r: Result<Document>)
    ensures r.Ok? <==> decoded.Some? && HasPrefix(decoded.value.version, "3.")
    ensures r.Ok? ==> r.value == decoded.value
  {
    if decoded.None? then Err
    else if decoded.value.version == "" then Err
    else if !HasPrefix(decoded.value.version, "3.") then Err
    else Ok(decoded.value)
  }

  // ---------- The schema of a request body ----------

  predicate HasSchema(content: map<string, MediaType>, mediaType: string)
  {
    mediaType in content && content[mediaType].schema.Some?
  }

  predicate IsJsonLike(content: map<string, MediaType>, mediaType: string)
  {
    HasSchema(content, mediaType) && Contains(mediaType, "json")
  }

  /** The results pickJSONMedia can give: its last loop takes the first JSON-like type of a map iteration. */
  ghost predicate CanPick(content: map<string, MediaType>, picked: Option<Fields>)
  {
    if HasSchema(content, "application/json") then picked == content["application/json"].schema
    else if HasSchema(content, "*/*") then picked == content["*/*"].schema
    else if exists k :: IsJsonLike(content, k) then exists k :: IsJsonLike(content, k) && picked == content[k].schema
    else picked == None
  }

  /** How far a media type is down the order of preference; 3 stands for not at all. */
  function Rank(mediaType: string): nat
  {
    if mediaType == "application/json" then 0
    else if mediaType == "*/*" then 1
    else if Contains(mediaType, "json") then 2
    else 3
  }

  /** What can be picked is a schema of the best rank there is, or none when no schema has a rank. */
  lemma PicksBestRank(content: map<string, MediaType>, picked: Option<Fields>)
    ensures CanPick(content, picked) <==>
              if picked.None? then forall k | HasSchema(content, k) :: Rank(k) == 3
              else exists k :: HasSchema(content, k) && content[k].schema == picked && Rank(k) < 3
                               && forall j | HasSchema(content, j) :: Rank(k) <= Rank(j)
  {
    var plain := "application/json";
    assert plain[12..] == "json";
    assert Contains(plain, "json");
    if HasSchema(content, plain) {
      assert Rank(plain) == 0 && forall k | Rank(k) == 0 :: k == plain;
    } else if HasSchema(content, "*/*") {
      assert Rank("*/*") == 1;
      assert forall k | HasSchema(content, k) && Rank(k) <= 1 :: k == "*/*";
    } else {
      assert forall k | HasSchema(content, k) :: Rank(k) == if IsJsonLike(content, k) then 2 else 3;
    }
  }

  /** The pick does not depend on the map order. */
  ghost predicate IsUnambiguous(content: map<string, MediaType>)
  {
    || HasSchema(content, "application/json")
    || HasSchema(content, "*/*")
    || forall j, k | IsJsonLike(content, j) && IsJsonLike(content, k) :: content[j].schema == content[k].schema
  }

  lemma SomethingCanBePicked(content: map<string, MediaType>)
    ensures exists picked :: CanPick(content, picked)
  {
    if HasSchema(content, "application/json") {
      assert CanPick(content, content["application/json"].schema);
    } else if HasSchema(content, "*/*") {
      assert CanPick(content, content["*/*"].schema);
    } else if k :| IsJsonLike(content, k) {
      assert CanPick(content, content[k].schema);
    } else {
      assert CanPick(content, None);
    }
  }

  /** Two iterations agree on every pick exactly when the content is unambiguous. */
  lemma PickIsStable(content: map<string, MediaType>)
    ensures (forall a, b | CanPick(content, a) && CanPick(content, b) :: a == b) <==> IsUnambiguous(content)
  {
    if !IsUnambiguous(content) {
      var j, k :| IsJsonLike(content, j) && IsJsonLike(content, k) && content[j].schema != content[k].schema;
      assert CanPick(content, content[j].schema) && CanPick(content, content[k].schema);
    }
  }

  /** Two JSON-like types with different schemas: either can be picked. */
  lemma PickCanVary()
    ensures var a, b := map["type" := Str("a")], map["type" := Str("b")];
            var content := map["text/json" := MediaType(Some(a)), "x-json" := MediaType(Some(b))];
            CanPick(content, Some(a)) && CanPick(content, Some(b)) && Some(a) != Some(b)
  {
    var a, b := map["type" := Str("a")], map["type" := Str("b")];
    var content := map["text/json" := MediaType(Some(a)), "x-json" := MediaType(Some(b))];
    assert "text/json"[5..] == "json" && "x-json"[2..] == "json";
    assert IsJsonLike(content, "text/json") && IsJsonLike(content, "x-json");
    assert a["type"] != b["type"];
  }

  method PickJSONMedia(content: map<string, MediaType>) returns (picked: Option<Fields>)
    ensures CanPick(content, picked)
  {
    if "application/json" in content && content["application/json"].schema.Some? {
      return content["application/json"].schema;
    }
    if "*/*" in content && content["*/*"].schema.Some? {
      return content["*/*"].schema;
    }
    var pending := content.Keys;
    while pending != {}
      invariant pending <= content.Keys
      invariant forall k | k in content && k !in pending :: !IsJsonLike(content, k)
      decreases |pending|
    {
      var k :| k in pending;
      pending := pending - {k};
      if Contains(k, "json") && content[k].schema.Some? {
        assert IsJsonLike(content, k);
        return content[k].schema;
      }
    }
    return None;
  }

  const SCHEMA_PREFIX := "#/components/schemas/"

  /** resolveSchema: one step through a local reference. */
  function ResolveSchema(schema: Fields, doc: Document): Option<Fields>
  {
    if "$ref" in schema && schema["$ref"].Str? && schema["$ref"].s != "" then
      var ref := schema["$ref"].s;
      if !HasPrefix(ref, SCHEMA_PREFIX) then None
      else
        var name := ref[|SCHEMA_PREFIX|..];
        if name in doc.schemas && doc.schemas[name].Object? then Some(doc.schemas[name].fields) else None
    else Some(schema)
  }

  function StringsOf(items: seq<Json>): seq<string>
  {
    if items == [] then []
    else (if items[0].Str? then [items[0].s] else []) + StringsOf(items[1..])
  }

  /** The body of an operation, and the reason to skip the operation, if any. */
  function Project(raw: RawBody, doc: Document, picked: Option<Fields>): (Option<RequestBody>, SkipReason)
  {
    if raw.ref != "" then (None, BodyIsReference)
    else if raw.content == map[] then (None, NotSkipped)
    else if picked.None? then (None, NoJSONMedia)
    else
      match ResolveSchema(picked.value, doc)
      case None => (None, UnresolvableSchema)
      case Some(schema) =>
        var typ := if "type" in schema && schema["type"].Str? then schema["type"].s else "";
        if typ == "object" || (typ == "" && "properties" in schema && schema["properties"] != Null) then
          var props := if "properties" in schema && schema["properties"].Object? then schema["properties"].fields else map[];
          var names := if "required" in schema && schema["required"].Array? then StringsOf(schema["required"].items) else [];
          (Some(Expanded(raw.required, props, names)), NotSkipped)
        else (Some(Whole(raw.required, schema)), NotSkipped)
  }

  method ProjectRequestBody(raw: RawBody, doc: Document)
    returns (body: Option<RequestBody>, skip: SkipReason)
    ensures exists picked :: CanPick(raw.content, picked) && (body, skip) == Project(raw, doc, picked)
  {
    SomethingCanBePicked(raw.content);
    if raw.ref != "" {
      return None, BodyIsReference;
    }
    if |raw.content| == 0 {
      return None, NotSkipped;
    }
    var schema := PickJSONMedia(raw.content);
    if schema.None? {
      return None, NoJSONMedia;
    }
    var resolved := ResolveSchema(schema.value, doc);
    if resolved.None? {
      return None, UnresolvableSchema;
    }
    var fields := resolved.value;
    var typ := if "type" in fields && fields["type"].Str? then fields["type"].s else "";
    if typ == "object" || (typ == "" && "properties" in fields && fields["properties"] != Null) {
      var props := if "properties" in fields && fields["properties"].Object? then fields["properties"].fields else map[];
      var names := if "required" in fields && fields["required"].Array? then StringsOf(fields["required"].items) else [];
      return Some(Expanded(raw.required, props, names)), NotSkipped;
    }
    return Some(Whole(raw.required, fields)), NotSkipped;
  }

  // ---------- What a projected body means ----------

  /** A schema for JSON, of any of the media types that count. */
  ghost predicate HasJsonSchema(content: map<string, MediaType>)
  {
    exists k :: HasSchema(content, k) && (k == "*/*" || Contains(k, "json"))
  }

  lemma PicksExactly(content: map<string, MediaType>, picked: Option<Fields>)
    requires CanPick(content, picked)
    ensures picked.Some? <==> HasJsonSchema(content)
    ensures picked.Some? ==> exists k :: HasSchema(content, k) && content[k].schema == picked
  {
    var plain := "application/json";
    assert plain[12..] == "json";
    assert Contains(plain, "json");
    if k :| HasSchema(content, k) && (k == "*/*" || Contains(k, "json")) {
      assert IsJsonLike(content, k) || HasSchema(content, "*/*");
    }
  }

  predicate IsReference(schema: Fields)
  {
    "$ref" in schema && schema["$ref"].Str? && schema["$ref"].s != ""
  }

  /** `target` is what the schema stands for: itself, or the object its local reference names. */
  predicate StandsFor(schema: Fields, doc: Document, target: Fields)
  {
    if IsReference(schema) then
      exists name | name in doc.schemas ::
        schema["$ref"].s == SCHEMA_PREFIX + name && doc.schemas[name] == Object(target)
    else target == schema
  }

  lemma ResolvesExactly(schema: Fields, doc: Document, target: Fields)
    ensures ResolveSchema(schema, doc) == Some(target) <==> StandsFor(schema, doc, target)
  {
    if IsReference(schema) {
      var ref, n := schema["$ref"].s, |SCHEMA_PREFIX|;
      if name :| name in doc.schemas && ref == SCHEMA_PREFIX + name && doc.schemas[name] == Object(target) {
        assert ref[n..] == name && ref[..n] == SCHEMA_PREFIX;
      }
      if HasPrefix(ref, SCHEMA_PREFIX) {
        assert ref == SCHEMA_PREFIX + ref[n..];
      }
    }
  }

  /** An object schema: its type says so, or it has properties and no type. */
  predicate IsObjectSchema(schema: Fields)
  {
    if "type" in schema && schema["type"].Str? && schema["type"].s != "" then schema["type"].s == "object"
    else "properties" in schema && schema["properties"] != Null
  }

  /** The body that stands for a schema: an object schema is expanded into its properties, others stay whole. */
  ghost predicate IsBodyOf(body: RequestBody, required: bool, schema: Fields)
  {
    && body.required == required
    && (body.Expanded? <==> IsObjectSchema(schema))
    && (body.Whole? ==> body.schema == schema)
    && (body.Expanded? ==> forall name ::
          name in body.properties <==>
          "properties" in schema && schema["properties"].Object? && name in schema["properties"].fields)
    && (body.Expanded? ==> forall name | name in body.properties :: body.properties[name] == schema["properties"].fields[name])
    && (body.Expanded? ==> forall name ::
          name in body.requiredProps <==>
          "required" in schema && schema["required"].Array? && Str(name) in schema["required"].items)
  }

  lemma {:induction false} StringsOfHas(items: seq<Json>, name: string)
    ensures name in StringsOf(items) <==> Str(name) in items
  {
    if items != [] {
      StringsOfHas(items[1..], name);
      assert items == [items[0]] + items[1..];
    }
  }

  /** An empty body, nothing to skip. */
  predicate HasNothing(raw: RawBody)
  {
    raw.ref == "" && raw.content == map[]
  }

  /** When an operation with this body is skipped, and why. */
  lemma SkipsExactly(raw: RawBody, doc: Document, picked: Option<Fields>)
    requires CanPick(raw.content, picked)
    ensures var (body, skip) := Project(raw, doc, picked);
            && (skip == BodyIsReference <==> raw.ref != "")
            && (skip == NoJSONMedia <==> raw.ref == "" && raw.content != map[] && !HasJsonSchema(raw.content))
            && (skip == UnresolvableSchema <==>
                  raw.ref == "" && picked.Some? && !exists target :: StandsFor(picked.value, doc, target))
            && skip != DuplicateID
            && (body.Some? <==> skip == NotSkipped && !HasNothing(raw))
  {
    PicksExactly(raw.content, picked);
    if picked.Some? {
      var resolved := ResolveSchema(picked.value, doc);
      if resolved.Some? {
        ResolvesExactly(picked.value, doc, resolved.value);
      }
      forall target ensures resolved == Some(target) <==> StandsFor(picked.value, doc, target) {
        ResolvesExactly(picked.value, doc, target);
      }
    }
  }

  /** A body that is there is that of a JSON schema of the request, resolved. */
  lemma BodyMeans(raw: RawBody, doc: Document, picked: Option<Fields>)
    requires CanPick(raw.content, picked) && Project(raw, doc, picked).0.Some?
    ensures exists k, schema :: HasSchema(raw.content, k) && StandsFor(raw.content[k].schema.value, doc, schema)
                                && IsBodyOf(Project(raw, doc, picked).0.value, raw.required, schema)
  {
    PicksExactly(raw.content, picked);
    var k :| HasSchema(raw.content, k) && raw.content[k].schema == picked;
    var schema := ResolveSchema(picked.value, doc).value;
    ResolvesExactly(picked.value, doc, schema);
    ProjectedBodyMeans(raw, doc, picked, schema);
  }

  lemma ProjectedBodyMeans(raw: RawBody, doc: Document, picked: Option<Fields>, schema: Fields)
    requires Project(raw, doc, picked).0.Some?
    requires ResolveSchema(picked.value, doc) == Some(schema)
    ensures IsBodyOf(Project(raw, doc, picked).0.value, raw.required, schema)
  {
    var body := Project(raw, doc, picked).0.value;
    if body.Expanded? && "required" in schema && schema["required"].Array? {
      forall name ensures name in body.requiredProps <==> Str(name) in schema["required"].items {
        StringsOfHas(schema["required"].items, name);
      }
    }
  }

  // ---------- The operations of a document ----------

  datatype Slot = Slot(path: string, method_: string)

  predicate HasSlot(doc: Document, s: Slot)
  {
    && s.path in doc.paths && s.method_ in HTTP_METHODS && s.method_ in doc.paths[s.path].operations
    && doc.paths[s.path].operations[s.method_].operationID != ""
  }

  function RawAt(doc: Document, s: Slot): RawOperation
    requires HasSlot(doc, s)
  {
    doc.paths[s.path].operations[s.method_]
  }

  /** The slots that carry an operationId. */
  ghost function Slots(doc: Document): set<Slot>
    ensures forall s :: s in Slots(doc) <==> HasSlot(doc, s)
  {
    set p, m | p in doc.paths && m in HTTP_METHODS && HasSlot(doc, Slot(p, m)) :: Slot(p, m)
  }

  ghost predicate CanPickFor(raw: RawOperation, picked: Option<Fields>)
  {
    raw.body.Some? ==> CanPick(raw.body.value.content, picked)
  }

  /** The operation of a slot, given the schema picked for its body. */
  function OperationWith(api: string, doc: Document, s: Slot, picked: Option<Fields>): Operation
    requires HasSlot(doc, s)
  {
    var raw := RawAt(doc, s);
    var (body, skip) := if raw.body.None? then (None, NotSkipped) else Project(raw.body.value, doc, picked);
    Operation(api, raw.operationID, s.method_, s.path, raw.tags, raw.summary, raw.description,
              Merged(doc.paths[s.path].parameters + raw.parameters), if skip == NotSkipped then body else None, skip)
  }

  ghost predicate IsOperationOf(api: string, doc: Document, s: Slot, op: Operation)
    requires HasSlot(doc, s)
  {
    exists picked :: CanPickFor(RawAt(doc, s), picked) && op == OperationWith(api, doc, s, picked)
  }

  /**
   * An operation says what the document says at its slot; its parameters are those of the operation and the
   * ones of the path item that the operation does not redeclare.
   */
  lemma OperationMeans(api: string, doc: Document, s: Slot, op: Operation)
    requires HasSlot(doc, s) && IsOperationOf(api, doc, s, op)
    ensures var item := doc.paths[s.path];
            var raw := item.operations[s.method_];
            && op.apiName == api && op.operationID == raw.operationID && op.method_ == s.method_ && op.path == s.path
            && op.tags == raw.tags && op.summary == raw.summary && op.description == raw.description
            && forall q :: q in op.parameters <==>
                 || IsLastDeclared(raw.parameters, q)
                 || (IsLastDeclared(item.parameters, q) && !Declares(raw.parameters, q.location, q.name))
  {
    var item, raw := doc.paths[s.path], RawAt(doc, s);
    forall q
      ensures q in Merged(item.parameters + raw.parameters) <==>
                || IsLastDeclared(raw.parameters, q)
                || (IsLastDeclared(item.parameters, q) && !Declares(raw.parameters, q.location, q.name))
    {
      MergedMeans(item.parameters, raw.parameters, q);
    }
  }

  /** What stands in for a repeated operationId. */
  function Duplicate(api: string, doc: Document, s: Slot): Operation
    requires HasSlot(doc, s)
  {
    Operation(api, RawAt(doc, s).operationID, s.method_, s.path, [], "", "", [], None, DuplicateID)
  }

  /** One reading of a document: an operation for every slot. */
  type Reading = map<Slot, Operation>

  ghost predicate IsReading(api: string, doc: Document, rd: Reading)
  {
    rd.Keys == Slots(doc) && forall s | s in rd :: IsOperationOf(api, doc, s, rd[s])
  }

  ghost predicate DistinctIDs(doc: Document)
  {
    forall s, t | HasSlot(doc, s) && HasSlot(doc, t) && s != t :: RawAt(doc, s).operationID != RawAt(doc, t).operationID
  }

  ghost predicate AreSlots(doc: Document, visited: seq<Slot>)
  {
    forall i | 0 <= i < |visited| :: HasSlot(doc, visited[i])
  }

  ghost function IDs(doc: Document, visited: seq<Slot>): set<string>
    requires AreSlots(doc, visited)
  {
    set i | 0 <= i < |visited| :: RawAt(doc, visited[i]).operationID
  }

  /** `ops` lists the visited slots in order: the reading's operation, or a stub for a repeated id. */
  ghost predicate IsExtraction(api: string, doc: Document, rd: Reading, visited: seq<Slot>, ops: seq<Operation>)
  {
    && |ops| == |visited|
    && AreSlots(doc, visited)
    && (forall i | 0 <= i < |visited| :: visited[i] in rd)
    && (forall i, j | 0 <= i < j < |visited| :: visited[i] != visited[j])
    && forall i | 0 <= i < |visited| :: ops[i] == Emitted(api, doc, rd, visited, i)
  }

  /** The extraction of a reading that visits every slot. */
  ghost predicate IsFullExtraction(api: string, doc: Document, rd: Reading, visited: seq<Slot>, ops: seq<Operation>)
  {
    && IsReading(api, doc, rd)
    && IsExtraction(api, doc, rd, visited, ops)
    && forall s :: s in visited <==> HasSlot(doc, s)
  }

  ghost function Emitted(api: string, doc: Document, rd: Reading, visited: seq<Slot>, i: nat): Operation
    requires i < |visited| && AreSlots(doc, visited) && visited[i] in rd
  {
    if RawAt(doc, visited[i]).operationID in IDs(doc, visited[..i]) then Duplicate(api, doc, visited[i])
    else rd[visited[i]]
  }

  lemma SomeOperation(api: string, doc: Document, s: Slot) returns (op: Operation)
    requires HasSlot(doc, s)
    ensures IsOperationOf(api, doc, s, op)
  {
    var raw := RawAt(doc, s);
    var picked := None;
    if raw.body.Some? {
      SomethingCanBePicked(raw.body.value.content);
      picked :| CanPick(raw.body.value.content, picked);
    }
    op := OperationWith(api, doc, s, picked);
  }

  method NormalizeOperation(api: string, doc: Document, s: Slot) returns (op: Operation)
    requires HasSlot(doc, s)
    ensures IsOperationOf(api, doc, s, op)
  {
    var item := doc.paths[s.path];
    var raw := item.operations[s.method_];
    var params := MergeParameters(item.parameters, raw.parameters);
    var body, skip := None, NotSkipped;
    ghost var picked := None;
    if raw.body.Some? {
      body, skip := ProjectRequestBody(raw.body.value, doc);
      picked :| CanPick(raw.body.value.content, picked) && (body, skip) == Project(raw.body.value, doc, picked);
      if skip != NotSkipped {
        body := None;
      }
    }
    op := Operation(api, raw.operationID, s.method_, s.path, raw.tags, raw.summary, raw.description, params, body, skip);
    assert op == OperationWith(api, doc, s, picked);
  }

  /** The state of the extraction loops agrees with the slots visited so far. */
  ghost predicate IsProgress(api: string, doc: Document, seenIDs: set<string>, ops: seq<Operation>,
                             visited: seq<Slot>, rd: Reading)
  {
    && IsExtraction(api, doc, rd, visited, ops)
    && (forall s :: s in rd <==> s in visited)
    && (forall s | s in rd :: IsOperationOf(api, doc, s, rd[s]))
    && seenIDs == IDs(doc, visited)
  }

  lemma ProgressGrows(api: string, doc: Document, seenIDs: set<string>, ops: seq<Operation>,
                      visited: seq<Slot>, rd: Reading, s: Slot, op: Operation, read: Operation)
    requires IsProgress(api, doc, seenIDs, ops, visited, rd)
    requires HasSlot(doc, s) && s !in visited && IsOperationOf(api, doc, s, read)
    requires op == if RawAt(doc, s).operationID in seenIDs then Duplicate(api, doc, s) else read
    ensures IsProgress(api, doc, seenIDs + {RawAt(doc, s).operationID}, ops + [op], visited + [s], rd[s := read])
  {
    IDsGrow(doc, visited, s);
    ExtractionGrows(api, doc, rd, visited, ops, s, op, read);
    forall t ensures t in rd[s := read] <==> t in visited + [s] {
      assert t in rd <==> t in visited;
    }
  }

  lemma ExtractionGrows(api: string, doc: Document, rd: Reading, visited: seq<Slot>, ops: seq<Operation>,
                        s: Slot, op: Operation, read: Operation)
    requires IsExtraction(api, doc, rd, visited, ops) && HasSlot(doc, s) && s !in visited
    requires op == if RawAt(doc, s).operationID in IDs(doc, visited) then Duplicate(api, doc, s) else read
    ensures IsExtraction(api, doc, rd[s := read], visited + [s], ops + [op])
  {
    var visited', ops', rd' := visited + [s], ops + [op], rd[s := read];
    var n := |visited|;
    assert AreSlots(doc, visited');
    forall i | 0 <= i <= n ensures visited'[i] in rd' && ops'[i] == Emitted(api, doc, rd', visited', i) {
      assert visited'[..i] == visited[..i];
      if i < n {
        assert visited[i] in visited;
        assert ops[i] == Emitted(api, doc, rd, visited, i);
      } else {
        assert visited[..n] == visited;
      }
    }
  }

  lemma IDsGrow(doc: Document, visited: seq<Slot>, s: Slot)
    requires AreSlots(doc, visited) && HasSlot(doc, s)
    ensures AreSlots(doc, visited + [s])
    ensures IDs(doc, visited + [s]) == IDs(doc, visited) + {RawAt(doc, s).operationID}
  {
    var visited' := visited + [s];
    forall id ensures id in IDs(doc, visited') <==> id in IDs(doc, visited) || id == RawAt(doc, s).operationID {
      if id in IDs(doc, visited) {
        var i :| 0 <= i < |visited| && RawAt(doc, visited[i]).operationID == id;
        assert visited'[i] == visited[i];
      }
      assert visited'[|visited|] == s;
    }
  }

  /** The body of the method loop, for a slot that has an operationId. */
  method VisitSlot(api: string, doc: Document, s: Slot, seenIDs: set<string>, ghost ops: seq<Operation>,
                   ghost visited: seq<Slot>, ghost rd: Reading)
    returns (seenIDs': set<string>, op: Operation, ghost rd': Reading)
    requires IsProgress(api, doc, seenIDs, ops, visited, rd)
    requires HasSlot(doc, s) && s !in visited
    ensures IsProgress(api, doc, seenIDs', ops + [op], visited + [s], rd')
  {
    var id := doc.paths[s.path].operations[s.method_].operationID;
    if id in seenIDs {
      op := Operation(api, id, s.method_, s.path, [], "", "", [], None, DuplicateID);
      ghost var read := SomeOperation(api, doc, s);
      ProgressGrows(api, doc, seenIDs, ops, visited, rd, s, op, read);
      rd' := rd[s := read];
      seenIDs' := seenIDs;
      assert seenIDs' == seenIDs + {id};
    } else {
      op := NormalizeOperation(api, doc, s);
      ProgressGrows(api, doc, seenIDs, ops, visited, rd, s, op, op);
      rd' := rd[s := op];
      seenIDs' := seenIDs + {id};
    }
  }

  /** Paths in any map order, methods in the fixed order within a path. */
  method ExtractOperations(api: string, doc: Document) returns (ops: seq<Operation>)
    ensures exists rd, visited :: IsFullExtraction(api, doc, rd, visited, ops)
  {
    var seenIDs: set<string> := {};
    ops := [];
    ghost var visited: seq<Slot>, rd: Reading := [], map[];
    var pending := doc.paths.Keys;
    while pending != {}
      invariant pending <= doc.paths.Keys
      invariant IsProgress(api, doc, seenIDs, ops, visited, rd)
      invariant forall s :: s in visited <==> HasSlot(doc, s) && s.path !in pending
      decreases |pending|
    {
      var path :| path in pending;
      ghost var waiting := pending;
      pending := pending - {path};
      var item := doc.paths[path];
      for k := 0 to |HTTP_METHODS|
        invariant IsProgress(api, doc, seenIDs, ops, visited, rd)
        invariant forall s :: s in visited <==>
                    HasSlot(doc, s) && (s.path !in waiting || (s.path == path && s.method_ in HTTP_METHODS[..k]))
      {
        var m := HTTP_METHODS[k];
        assert HTTP_METHODS[..k + 1] == HTTP_METHODS[..k] + [m];
        if m in item.operations && item.operations[m].operationID != "" {
          var op;
          MethodsAreDistinct(k);
          seenIDs, op, rd := VisitSlot(api, doc, Slot(path, m), seenIDs, ops, visited, rd);
          ops := ops + [op];
          visited := visited + [Slot(path, m)];
        }
      }
    }
    assert rd.Keys == Slots(doc);
    assert IsFullExtraction(api, doc, rd, visited, ops);
  }

  lemma MethodsAreDistinct(k: nat)
    requires k < |HTTP_METHODS|
    ensures HTTP_METHODS[k] !in HTTP_METHODS[..k]
  {
    assert forall i, j | 0 <= i < j < |HTTP_METHODS| :: HTTP_METHODS[i] != HTTP_METHODS[j];
  }
}
