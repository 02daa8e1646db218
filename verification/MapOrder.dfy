/** When exactly the order of Go's map iteration can show in what a load of the registry does. */
module MapOrder {
  import opened Wrappers
  import opened Json
  import opened Discovery
  import opened ToolMeta
  import opened Documents
  import opened Collect
  import opened ToolRegistry
  import Gateway

  /** Some map order reads the slot as this operation. */
  ghost predicate CanRead(svc: Service, s: Slot, op: Operation)
  {
    LoadDoc(svc.decoded).Ok? && HasSlot(svc.decoded.value, s) && IsOperationOf(svc.name, svc.decoded.value, s, op)
  }

  /** Both operations are left out, or both become the same tool. */
  ghost predicate LookAlike(e: Engine, svc: Service, a: Operation, b: Operation)
  {
    && (IsExposed(e, svc, a) <==> IsExposed(e, svc, b))
    && (IsExposed(e, svc, a) ==> BuildMeta(svc.prefix, a) == BuildMeta(svc.prefix, b))
  }

  /** Every slot of the document is left out, or becomes the same tool, whatever the map order. */
  ghost predicate IsStable(e: Engine, svc: Service)
  {
    forall s, a, b | CanRead(svc, s, a) && CanRead(svc, s, b) :: LookAlike(e, svc, a, b)
  }

  ghost predicate AreStable(e: Engine, apis: seq<Service>)
  {
    forall i | 0 <= i < |apis| :: IsStable(e, apis[i])
  }

  /** Two loads both fail or both succeed, and then with the same tools and counts. */
  ghost predicate IsSameLoad(e: Engine, apis: seq<Service>, reserved: set<string>, a: seq<Reading>, b: seq<Reading>)
    requires |a| == |apis| == |b|
  {
    && (CanLoad(e, apis, a, reserved) <==> CanLoad(e, apis, b, reserved))
    && forall toolsA, countsA, toolsB, countsB |
         CanLoad(e, apis, a, reserved) && IsLoaded(e, apis, a, toolsA, countsA) && IsLoaded(e, apis, b, toolsB, countsB) ::
         toolsA == toolsB && countsA == countsB
  }

  // ---------- Stable documents load the same ----------

  lemma ReadingReads(svc: Service, rd: Reading, s: Slot)
    requires IsServiceReading(svc, rd) && s in rd
    ensures CanRead(svc, s, rd[s]) && rd[s].operationID == RawAt(svc.decoded.value, s).operationID
  {
    ReadsOwnID(svc.name, svc.decoded.value, rd, s);
  }

  lemma SameSlots(svc: Service, a: Reading, b: Reading)
    requires IsServiceReading(svc, a) && IsServiceReading(svc, b)
    ensures a.Keys == b.Keys
  {
  }

  lemma StableNames(e: Engine, svc: Service, a: Reading, b: Reading)
    requires IsServiceReading(svc, a) && IsServiceReading(svc, b) && IsStable(e, svc)
    ensures forall s :: s in Exposed(e, svc, a) <==> s in Exposed(e, svc, b)
    ensures ToolNames(e, svc, a) == ToolNames(e, svc, b)
  {
    SameSlots(svc, a, b);
    forall s | s in a
      ensures LookAlike(e, svc, a[s], b[s]) && ToolName(svc, a[s]) == ToolName(svc, b[s])
    {
      StableSlot(e, svc, a, b, s);
    }
    NamesWithin(e, svc, a, b);
    NamesWithin(e, svc, b, a);
  }

  lemma NamesWithin(e: Engine, svc: Service, a: Reading, b: Reading)
    requires forall s | s in Exposed(e, svc, a) :: s in Exposed(e, svc, b) && ToolName(svc, a[s]) == ToolName(svc, b[s])
    ensures ToolNames(e, svc, a) <= ToolNames(e, svc, b)
  {
    forall n | n in ToolNames(e, svc, a) ensures n in ToolNames(e, svc, b) {
      var s :| s in Exposed(e, svc, a) && ToolName(svc, a[s]) == n;
      assert s in Exposed(e, svc, b) && ToolName(svc, b[s]) == n;
    }
  }

  /** An exposed operation has its tool in the service. */
  lemma ToolOf(e: Engine, svc: Service, rd: Reading, s: Slot)
    requires IsServiceReading(svc, rd) && LoadDoc(svc.decoded).Ok? && DistinctIDs(svc.decoded.value)
    requires s in Exposed(e, svc, rd)
    ensures ToolName(svc, rd[s]) in ServiceTools(e, svc, rd)
    ensures ServiceTools(e, svc, rd)[ToolName(svc, rd[s])] == BuildMeta(svc.prefix, rd[s])
  {
    ServiceToolsAreExposed(e, svc, svc.decoded.value, rd);
  }

  lemma StableSlot(e: Engine, svc: Service, a: Reading, b: Reading, s: Slot)
    requires IsServiceReading(svc, a) && IsServiceReading(svc, b) && IsStable(e, svc) && s in a
    ensures s in b && LookAlike(e, svc, a[s], b[s]) && ToolName(svc, a[s]) == ToolName(svc, b[s])
  {
    SameSlots(svc, a, b);
    ReadingReads(svc, a, s);
    ReadingReads(svc, b, s);
  }

  lemma AlikeTools(e: Engine, svc: Service, a: Operation, b: Operation)
    requires LookAlike(e, svc, a, b) && IsExposed(e, svc, a)
    ensures IsExposed(e, svc, b) && BuildMeta(svc.prefix, a) == BuildMeta(svc.prefix, b)
  {
  }

  lemma StableEntry(e: Engine, svc: Service, a: Reading, b: Reading, n: string)
    requires IsServiceReading(svc, a) && IsServiceReading(svc, b) && IsStable(e, svc)
    requires LoadDoc(svc.decoded).Ok? && DistinctIDs(svc.decoded.value)
    requires n in ServiceTools(e, svc, a)
    ensures n in ServiceTools(e, svc, b) && ServiceTools(e, svc, a)[n] == ServiceTools(e, svc, b)[n]
  {
    var s := SlotOf(e, svc, a, n);
    StableSlot(e, svc, a, b, s);
    AlikeTools(e, svc, a[s], b[s]);
    ToolOf(e, svc, a, s);
    ToolOf(e, svc, b, s);
  }

  lemma StableTools(e: Engine, svc: Service, a: Reading, b: Reading)
    requires IsServiceReading(svc, a) && IsServiceReading(svc, b) && IsStable(e, svc)
    requires LoadDoc(svc.decoded).Ok? && DistinctIDs(svc.decoded.value)
    ensures ServiceTools(e, svc, a) == ServiceTools(e, svc, b)
  {
    var ours, theirs := ServiceTools(e, svc, a), ServiceTools(e, svc, b);
    forall n | n in ours ensures n in theirs && ours[n] == theirs[n] {
      StableEntry(e, svc, a, b, n);
    }
    forall n | n in theirs ensures n in ours {
      StableEntry(e, svc, b, a, n);
    }
    SameEntries(ours, theirs);
  }

  lemma StableServices(e: Engine, apis: seq<Service>, reserved: set<string>, a: seq<Reading>, b: seq<Reading>)
    requires AreReadings(apis, a) && AreReadings(apis, b) && AreStable(e, apis)
    ensures AllCanLoad(e, apis, a, reserved) <==> AllCanLoad(e, apis, b, reserved)
  {
    forall i | 0 <= i < |apis|
      ensures ServiceCanLoad(e, apis[i], a[i], reserved) <==> ServiceCanLoad(e, apis[i], b[i], reserved)
    {
      assert IsServiceReading(apis[i], a[i]) && IsServiceReading(apis[i], b[i]);
      StableNames(e, apis[i], a[i], b[i]);
    }
  }

  lemma StableYields(e: Engine, apis: seq<Service>, reserved: set<string>, a: seq<Reading>, b: seq<Reading>)
    requires AreReadings(apis, a) && AreReadings(apis, b) && AreStable(e, apis)
    requires AllCanLoad(e, apis, a, reserved)
    ensures Yields(e, apis, a) == Yields(e, apis, b)
  {
    forall i | 0 <= i < |apis| ensures ServiceTools(e, apis[i], a[i]) == ServiceTools(e, apis[i], b[i]) {
      assert IsServiceReading(apis[i], a[i]) && IsServiceReading(apis[i], b[i]);
      assert ServiceCanLoad(e, apis[i], a[i], reserved);
      StableTools(e, apis[i], a[i], b[i]);
    }
  }

  lemma StableLoads(e: Engine, apis: seq<Service>, reserved: set<string>, a: seq<Reading>, b: seq<Reading>)
    requires AreReadings(apis, a) && AreReadings(apis, b) && AreStable(e, apis)
    ensures IsSameLoad(e, apis, reserved, a, b)
  {
    StableServices(e, apis, reserved, a, b);
    if AllCanLoad(e, apis, a, reserved) {
      StableYields(e, apis, reserved, a, b);
    }
  }

  // ---------- A slot that is not stable shows ----------

  /** The readings differ at one service only, and there in how they read the slot `s`. */
  ghost predicate DifferAt(e: Engine, apis: seq<Service>, a: seq<Reading>, b: seq<Reading>, k: nat, s: Slot)
  {
    && |a| == |apis| == |b| && k < |apis|
    && (forall i | 0 <= i < |apis| && i != k :: a[i] == b[i])
    && s in a[k] && s in b[k] && !LookAlike(e, apis[k], a[k][s], b[k][s])
  }

  /** An operation that is left out leaves its name unused in its service. */
  lemma LeftOutName(e: Engine, svc: Service, rd: Reading, reserved: set<string>, s: Slot)
    requires IsServiceReading(svc, rd) && ServiceCanLoad(e, svc, rd, reserved)
    requires s in rd && !IsExposed(e, svc, rd[s])
    ensures ToolName(svc, rd[s]) !in ServiceTools(e, svc, rd)
  {
    var n := ToolName(svc, rd[s]);
    if n in ToolNames(e, svc, rd) {
      var t :| t in Exposed(e, svc, rd) && ToolName(svc, rd[t]) == n;
      ReadingReads(svc, rd, s);
      ReadingReads(svc, rd, t);
      PrefixCancels(svc.prefix, rd[s].operationID, rd[t].operationID);
    }
  }

  lemma SameName(svc: Service, a: Reading, b: Reading, s: Slot)
    requires IsServiceReading(svc, a) && IsServiceReading(svc, b) && s in a && s in b
    ensures ToolName(svc, a[s]) == ToolName(svc, b[s])
  {
    ReadingReads(svc, a, s);
    ReadingReads(svc, b, s);
  }

  /** The tools of a load that can load. */
  lemma LoadedBy(e: Engine, apis: seq<Service>, rds: seq<Reading>, reserved: set<string>)
    returns (tools: map<string, ToolMeta>, counts: map<string, nat>)
    requires |rds| == |apis| && CanLoad(e, apis, rds, reserved)
    ensures IsLoaded(e, apis, rds, tools, counts)
  {
    tools, counts := Merge(Yields(e, apis, rds)), Fold(ServiceNames(apis), Sizes(Yields(e, apis, rds)), map[]);
  }

  lemma ReadingAt(apis: seq<Service>, rds: seq<Reading>, k: nat)
    requires AreReadings(apis, rds) && k < |apis|
    ensures IsServiceReading(apis[k], rds[k])
  {
  }

  /** A tool that only one of two loads has. */
  lemma ToolIsMissing(e: Engine, apis: seq<Service>, reserved: set<string>, a: seq<Reading>, b: seq<Reading>, k: nat, s: Slot,
                      toolsA: map<string, ToolMeta>, countsA: map<string, nat>,
                      toolsB: map<string, ToolMeta>, countsB: map<string, nat>)
    requires AreReadings(apis, a) && AreReadings(apis, b) && DifferAt(e, apis, a, b, k, s)
    requires CanLoad(e, apis, a, reserved) && IsLoaded(e, apis, a, toolsA, countsA)
    requires CanLoad(e, apis, b, reserved) && IsLoaded(e, apis, b, toolsB, countsB)
    requires IsExposed(e, apis[k], a[k][s]) && !IsExposed(e, apis[k], b[k][s])
    ensures ToolName(apis[k], a[k][s]) in toolsA && ToolName(apis[k], a[k][s]) !in toolsB
  {
    var n := ToolName(apis[k], a[k][s]);
    ReadingAt(apis, a, k);
    ReadingAt(apis, b, k);
    SameName(apis[k], a[k], b[k], s);
    LeftOutName(e, apis[k], b[k], reserved, s);
    ExposedIsTool(e, apis, a, reserved, toolsA, countsA, k, s);
    ToolOfService(e, apis, a, reserved, k, s);
    NameIsUnused(e, apis, reserved, a, b, k, n);
    MergeHas(Yields(e, apis, b), n);
  }

  lemma ToolOfService(e: Engine, apis: seq<Service>, rds: seq<Reading>, reserved: set<string>, k: nat, s: Slot)
    requires AreReadings(apis, rds) && CanLoad(e, apis, rds, reserved) && k < |apis| && s in Exposed(e, apis[k], rds[k])
    ensures ToolName(apis[k], rds[k][s]) in ServiceTools(e, apis[k], rds[k])
  {
    ReadingAt(apis, rds, k);
    assert ServiceCanLoad(e, apis[k], rds[k], reserved);
    ToolOf(e, apis[k], rds[k], s);
  }

  /** A name of one service is in no other, so leaving it out there leaves it out altogether. */
  lemma NameIsUnused(e: Engine, apis: seq<Service>, reserved: set<string>, a: seq<Reading>, b: seq<Reading>, k: nat, n: string)
    requires |a| == |apis| == |b| && k < |apis| && CanLoad(e, apis, a, reserved)
    requires forall i | 0 <= i < |apis| && i != k :: a[i] == b[i]
    requires n in ServiceTools(e, apis[k], a[k]) && n !in ServiceTools(e, apis[k], b[k])
    ensures forall i | 0 <= i < |apis| :: n !in Yields(e, apis, b)[i]
  {
    YieldAt(e, apis, a, k);
    YieldAt(e, apis, b, k);
    forall i | 0 <= i < |apis| && i != k ensures Yields(e, apis, b)[i] == Yields(e, apis, a)[i] {
      YieldAt(e, apis, a, i);
      YieldAt(e, apis, b, i);
    }
    DroppedName(Yields(e, apis, a), Yields(e, apis, b), k, n);
  }

  lemma YieldAt(e: Engine, apis: seq<Service>, rds: seq<Reading>, i: nat)
    requires i < |apis| == |rds|
    ensures Yields(e, apis, rds)[i] == ServiceTools(e, apis[i], rds[i])
  {
  }

  lemma DifferenceShows(e: Engine, apis: seq<Service>, reserved: set<string>, a: seq<Reading>, b: seq<Reading>, k: nat, s: Slot)
    requires AreReadings(apis, a) && AreReadings(apis, b) && DifferAt(e, apis, a, b, k, s)
    ensures !(CanLoad(e, apis, a, reserved) && IsSameLoad(e, apis, reserved, a, b))
  {
    if CanLoad(e, apis, a, reserved) && CanLoad(e, apis, b, reserved) {
      var toolsA, countsA := LoadedBy(e, apis, a, reserved);
      var toolsB, countsB := LoadedBy(e, apis, b, reserved);
      if IsExposed(e, apis[k], a[k][s]) && IsExposed(e, apis[k], b[k][s]) {
        ExposedIsTool(e, apis, a, reserved, toolsA, countsA, k, s);
        ExposedIsTool(e, apis, b, reserved, toolsB, countsB, k, s);
        ReadingAt(apis, a, k);
        ReadingAt(apis, b, k);
        SameName(apis[k], a[k], b[k], s);
      } else if IsExposed(e, apis[k], a[k][s]) {
        ToolIsMissing(e, apis, reserved, a, b, k, s, toolsA, countsA, toolsB, countsB);
      } else {
        ToolIsMissing(e, apis, reserved, b, a, k, s, toolsB, countsB, toolsA, countsA);
      }
      assert toolsA != toolsB;
    }
  }

  /** From any readings, one service can be made to read a slot as any operation it can read. */
  lemma ReadOtherwise(apis: seq<Service>, rds: seq<Reading>, k: nat, s: Slot, op: Operation) returns (other: seq<Reading>)
    requires AreReadings(apis, rds) && k < |apis| && CanRead(apis[k], s, op)
    ensures AreReadings(apis, other) && other == rds[k := rds[k][s := op]] && s in rds[k]
  {
    ReadingAt(apis, rds, k);
    other := rds[k := rds[k][s := op]];
    assert rds[k][s := op].Keys == rds[k].Keys;
    forall i | 0 <= i < |apis| ensures IsServiceReading(apis[i], other[i]) {
      ReadingAt(apis, rds, i);
    }
  }

  /** Of two operations that do not look alike, one does not look like the third. */
  lemma OneLooksOther(e: Engine, svc: Service, a: Operation, b: Operation, r: Operation)
    requires !LookAlike(e, svc, a, b)
    ensures !LookAlike(e, svc, r, a) || !LookAlike(e, svc, r, b)
  {
  }

  lemma SomeOtherLook(e: Engine, svc: Service) returns (s: Slot, a: Operation, b: Operation)
    requires !IsStable(e, svc)
    ensures CanRead(svc, s, a) && CanRead(svc, s, b) && !LookAlike(e, svc, a, b)
  {
    s, a, b :| CanRead(svc, s, a) && CanRead(svc, s, b) && !LookAlike(e, svc, a, b);
  }

  lemma UpdateDiffers(e: Engine, apis: seq<Service>, rds: seq<Reading>, k: nat, s: Slot, op: Operation)
    requires |rds| == |apis| && k < |apis| && s in rds[k] && !LookAlike(e, apis[k], rds[k][s], op)
    ensures DifferAt(e, apis, rds, rds[k := rds[k][s := op]], k, s)
  {
  }

  /** A slot that is not stable can be read so that it does not look as it did. */
  lemma SomeReadingDiffers(e: Engine, apis: seq<Service>, rds: seq<Reading>, k: nat) returns (other: seq<Reading>, s: Slot)
    requires AreReadings(apis, rds) && k < |apis| && !IsStable(e, apis[k])
    ensures AreReadings(apis, other) && DifferAt(e, apis, rds, other, k, s)
  {
    var a, b;
    s, a, b := SomeOtherLook(e, apis[k]);
    other := ReadOtherwise(apis, rds, k, s, a);
    OneLooksOther(e, apis[k], a, b, rds[k][s]);
    var op := if LookAlike(e, apis[k], rds[k][s], a) then b else a;
    other := ReadOtherwise(apis, rds, k, s, op);
    UpdateDiffers(e, apis, rds, k, s, op);
  }

  /**
   * The map order never shows, in whether services load or in what they load to, exactly when they load
   * under no order at all or every slot is left out or becomes the same tool under all of them.
   */
  lemma MapOrderIsHiddenExactly(e: Engine, apis: seq<Service>, reserved: set<string>)
    ensures (forall a, b | AreReadings(apis, a) && AreReadings(apis, b) :: IsSameLoad(e, apis, reserved, a, b))
       <==> (forall rds | AreReadings(apis, rds) :: !CanLoad(e, apis, rds, reserved)) || AreStable(e, apis)
  {
    if AreStable(e, apis) {
      forall a, b | AreReadings(apis, a) && AreReadings(apis, b) ensures IsSameLoad(e, apis, reserved, a, b) {
        StableLoads(e, apis, reserved, a, b);
      }
    } else if rds :| AreReadings(apis, rds) && CanLoad(e, apis, rds, reserved) {
      var k :| 0 <= k < |apis| && !IsStable(e, apis[k]);
      var other, s := SomeReadingDiffers(e, apis, rds, k);
      DifferenceShows(e, apis, reserved, rds, other, k, s);
    }
  }

  /** An unambiguous document is stable. */
  lemma UnambiguousIsStable(e: Engine, svc: Service)
    requires svc.decoded.Some? ==> IsUnambiguousDoc(svc.decoded.value)
    ensures IsStable(e, svc)
  {
    forall s, a, b | CanRead(svc, s, a) && CanRead(svc, s, b) ensures LookAlike(e, svc, a, b) {
      OperationIsDetermined(svc.name, svc.decoded.value, s, a, b);
    }
  }

  // ---------- A document whose order shows ----------

  /** A document with one operation whose body may have either of two JSON-like types. */
  function TwoTypes(a: Fields, b: Fields): map<string, MediaType>
  {
    map["text/json" := MediaType(Some(a)), "x-json" := MediaType(Some(b))]
  }

  function TwoTypesService(a: Fields, b: Fields): Service
  {
    var op := RawOperation("op", [], "", "", [], Some(RawBody(true, TwoTypes(a, b), "")));
    Service("s", "", Some(Document("3.0.3", map["/p" := PathItem([], map["POST" := op])], map[])), APIDiscovery([], []))
  }

  const POST_SLOT := Slot("/p", "POST")

  lemma TwoTypesSlot(a: Fields, b: Fields)
    ensures LoadDoc(TwoTypesService(a, b).decoded).Ok?
    ensures forall t :: HasSlot(TwoTypesService(a, b).decoded.value, t) <==> t == POST_SLOT
  {
    assert HTTP_METHODS[2] == "POST";
    assert forall t | HasSlot(TwoTypesService(a, b).decoded.value, t) :: t.path == "/p" && t.method_ == "POST";
  }

  lemma EitherTypeIsPicked(a: Fields, b: Fields)
    ensures CanPick(TwoTypes(a, b), Some(a)) && CanPick(TwoTypes(a, b), Some(b))
  {
    var content := TwoTypes(a, b);
    assert "text/json"[5..] == "json" && "x-json"[2..] == "json";
    assert IsJsonLike(content, "text/json") && IsJsonLike(content, "x-json");
  }

  /** A schema with a plain type: it stays whole and becomes the property `body`. */
  predicate IsPlainSchema(schema: Fields)
  {
    "$ref" !in schema && "type" in schema && schema["type"].Str? && schema["type"].s != "" && schema["type"].s != "object"
  }

  /** Read as picking the schema, the operation is exposed as a tool that shows it. */
  lemma PickShows(e: Engine, a: Fields, b: Fields, picked: Fields) returns (op: Operation)
    requires IsPlainSchema(picked) && CanPick(TwoTypes(a, b), Some(picked))
    ensures CanRead(TwoTypesService(a, b), POST_SLOT, op) && IsExposed(e, TwoTypesService(a, b), op)
    ensures "body" in BuildMeta("", op).properties && BuildMeta("", op).properties["body"] == Object(picked)
  {
    var svc := TwoTypesService(a, b);
    TwoTypesSlot(a, b);
    op := OperationWith(svc.name, svc.decoded.value, POST_SLOT, Some(picked));
    assert TwoTypes(a, b) != map[] by {
      assert "x-json" in TwoTypes(a, b);
    }
    assert op.body == Some(Whole(true, picked)) && op.skipReason == NotSkipped;
  }

  lemma TwoTypesAreUnstable(e: Engine, a: Fields, b: Fields)
    requires IsPlainSchema(a) && IsPlainSchema(b) && a != b
    ensures !IsStable(e, TwoTypesService(a, b))
  {
    EitherTypeIsPicked(a, b);
    var p := PickShows(e, a, b, a);
    var q := PickShows(e, a, b, b);
    assert BuildMeta("", p).properties["body"] != BuildMeta("", q).properties["body"];
    assert !LookAlike(e, TwoTypesService(a, b), p, q);
  }

  /** With no reserved names the service loads, however it is read. */
  lemma TwoTypesLoad(e: Engine, a: Fields, b: Fields) returns (x: seq<Reading>)
    ensures AreReadings([TwoTypesService(a, b)], x) && CanLoad(e, [TwoTypesService(a, b)], x, {})
  {
    var svc := TwoTypesService(a, b);
    TwoTypesSlot(a, b);
    var rd := SomeReading(svc);
    Gateway.SingleLoaded(e, svc, rd, {});
    x := [rd];
  }

  /** Different plain schemas make the map order show, and the service loads all the same. */
  lemma MapOrderCanShow(e: Engine, a: Fields, b: Fields) returns (x: seq<Reading>, y: seq<Reading>)
    requires IsPlainSchema(a) && IsPlainSchema(b) && a != b
    ensures AreReadings([TwoTypesService(a, b)], x) && AreReadings([TwoTypesService(a, b)], y)
    ensures CanLoad(e, [TwoTypesService(a, b)], x, {}) && !IsSameLoad(e, [TwoTypesService(a, b)], {}, x, y)
  {
    var apis := [TwoTypesService(a, b)];
    TwoTypesAreUnstable(e, a, b);
    x := TwoTypesLoad(e, a, b);
    var s;
    y, s := SomeReadingDiffers(e, apis, x, 0);
    DifferenceShows(e, apis, {}, x, y, 0, s);
  }
}
