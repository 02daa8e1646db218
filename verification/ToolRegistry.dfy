/** The registry of tools generated from the configured API services. */
module ToolRegistry {
  import opened Text
  import opened Wrappers
  import opened Json
  import opened Discovery
  import opened PathTemplate
  import opened ToolMeta
  import opened Documents
  import opened Collect
  import Sorting

  /** An apis.yaml entry with its document as read and decoded; None when that failed. */
  datatype Service = Service(name: string, prefix: string, decoded: Option<Document>, discovery: APIDiscovery)

  // ---------- What a load should produce ----------

  function CandidateOf(op: Operation): Candidate
  {
    Candidate(op.operationID, op.method_, op.path, op.tags)
  }

  function ToolName(svc: Service, op: Operation): string
  {
    svc.prefix + op.operationID
  }

  predicate AreDisjoint(a: set<string>, b: set<string>)
  {
    forall x | x in a :: x !in b
  }

  ghost predicate IsServiceReading(svc: Service, rd: Reading)
  {
    if LoadDoc(svc.decoded).Ok? then IsReading(svc.name, svc.decoded.value, rd) else rd == map[]
  }

  ghost predicate IsExposed(e: Engine, svc: Service, op: Operation)
  {
    op.skipReason == NotSkipped && Exposes(e, svc.discovery, CandidateOf(op))
  }

  /** The slots of a document that become tools. */
  ghost function Exposed(e: Engine, svc: Service, rd: Reading): set<Slot>
  {
    set s | s in rd && IsExposed(e, svc, rd[s])
  }

  ghost function ToolNames(e: Engine, svc: Service, rd: Reading): set<string>
  {
    set s | s in Exposed(e, svc, rd) :: ToolName(svc, rd[s])
  }

  /** The document and the patterns load, no operationId is repeated, no name is reserved. */
  ghost predicate ServiceCanLoad(e: Engine, svc: Service, rd: Reading, reserved: set<string>)
  {
    && LoadDoc(svc.decoded).Ok?
    && Compiles(e, svc.discovery)
    && DistinctIDs(svc.decoded.value)
    && AreDisjoint(ToolNames(e, svc, rd), reserved)
  }

  ghost predicate AreReadings(apis: seq<Service>, rds: seq<Reading>)
  {
    |rds| == |apis| && forall i | 0 <= i < |apis| :: IsServiceReading(apis[i], rds[i])
  }

  /** A slot that gives the tool name. There is only one when operationIds are distinct. */
  ghost function SlotOf(e: Engine, svc: Service, rd: Reading, name: string): (s: Slot)
    requires name in ToolNames(e, svc, rd)
    ensures s in Exposed(e, svc, rd) && ToolName(svc, rd[s]) == name
  {
    var s :| s in Exposed(e, svc, rd) && ToolName(svc, rd[s]) == name;
    s
  }

  /** The tools of one service. */
  ghost function ServiceTools(e: Engine, svc: Service, rd: Reading): map<string, ToolMeta>
  {
    map n | n in ToolNames(e, svc, rd) :: BuildMeta(svc.prefix, rd[SlotOf(e, svc, rd, n)])
  }

  ghost function Yields(e: Engine, apis: seq<Service>, rds: seq<Reading>): (ms: seq<map<string, ToolMeta>>)
    requires |rds| == |apis|
    ensures |ms| == |apis|
  {
    seq(|apis|, i requires 0 <= i < |apis| => ServiceTools(e, apis[i], rds[i]))
  }

  ghost predicate AllCanLoad(e: Engine, apis: seq<Service>, rds: seq<Reading>, reserved: set<string>)
    requires |rds| == |apis|
  {
    forall i | 0 <= i < |apis| :: ServiceCanLoad(e, apis[i], rds[i], reserved)
  }

  /** Every service can load and no two services generate the same tool name. */
  ghost predicate CanLoad(e: Engine, apis: seq<Service>, rds: seq<Reading>, reserved: set<string>)
    requires |rds| == |apis|
  {
    AllCanLoad(e, apis, rds, reserved) && ArePairwiseDisjoint(Yields(e, apis, rds))
  }

  function ServiceNames(apis: seq<Service>): (names: seq<string>)
    ensures |names| == |apis|
  {
    seq(|apis|, i requires 0 <= i < |apis| => apis[i].name)
  }

  ghost predicate HasDistinctNames(apis: seq<Service>)
  {
    AreNew(ServiceNames(apis), {})
  }

  /** The stores after a load: what the services yield, put together, and how much each yields. */
  ghost predicate IsLoaded(e: Engine, apis: seq<Service>, rds: seq<Reading>,
                           tools: map<string, ToolMeta>, byAPI: map<string, nat>)
    requires |rds| == |apis|
  {
    IsStored(ServiceNames(apis), Yields(e, apis, rds), tools, byAPI)
  }

  // ---------- Loading one service ----------

  lemma SomeReading(svc: Service) returns (rd: Reading)
    ensures IsServiceReading(svc, rd)
  {
    rd := map[];
    if LoadDoc(svc.decoded).Ok? {
      var doc := svc.decoded.value;
      forall s | HasSlot(doc, s) ensures exists op :: IsOperationOf(svc.name, doc, s, op) {
        var op := SomeOperation(svc.name, doc, s);
      }
      rd := map s | s in Slots(doc) :: var op :| IsOperationOf(svc.name, doc, s, op); op;
    }
  }

  lemma ReadsOwnID(api: string, doc: Document, rd: Reading, s: Slot)
    requires IsReading(api, doc, rd) && s in rd
    ensures HasSlot(doc, s) && rd[s].operationID == RawAt(doc, s).operationID && rd[s].skipReason != DuplicateID
  {
    assert IsOperationOf(api, doc, s, rd[s]);
    var picked :| CanPickFor(RawAt(doc, s), picked) && rd[s] == OperationWith(api, doc, s, picked);
    OperationKeepsID(api, doc, s, picked);
  }

  lemma OperationKeepsID(api: string, doc: Document, s: Slot, picked: Option<Fields>)
    requires HasSlot(doc, s)
    ensures OperationWith(api, doc, s, picked).operationID == RawAt(doc, s).operationID
    ensures OperationWith(api, doc, s, picked).skipReason != DuplicateID
  {
  }

  /** What discovery is asked about an operation of a document, and the name of its tool. */
  lemma ExposedMeans(e: Engine, svc: Service, rd: Reading, s: Slot)
    requires IsServiceReading(svc, rd) && s in rd
    ensures var raw := RawAt(svc.decoded.value, s);
            && (IsExposed(e, svc, rd[s]) <==>
                  && rd[s].skipReason == NotSkipped
                  && Exposes(e, svc.discovery, Candidate(raw.operationID, s.method_, s.path, raw.tags)))
            && ToolName(svc, rd[s]) == svc.prefix + raw.operationID
  {
    var doc := svc.decoded.value;
    assert IsOperationOf(svc.name, doc, s, rd[s]);
    var picked :| CanPickFor(RawAt(doc, s), picked) && rd[s] == OperationWith(svc.name, doc, s, picked);
    OperationKeepsID(svc.name, doc, s, picked);
  }

  lemma PrefixCancels(prefix: string, a: string, b: string)
    ensures prefix + a == prefix + b <==> a == b
  {
    if prefix + a == prefix + b {
      assert (prefix + a)[|prefix|..] == a && (prefix + b)[|prefix|..] == b;
    }
  }

  /** What the extraction says about the operation at position `k`. */
  lemma OperationAt(svc: Service, doc: Document, rd: Reading, visited: seq<Slot>, ops: seq<Operation>, k: nat)
    requires k < |ops|
    requires IsReading(svc.name, doc, rd) && IsExtraction(svc.name, doc, rd, visited, ops)
    ensures visited[k] in rd && HasSlot(doc, visited[k])
    ensures ops[k].skipReason != DuplicateID ==> ops[k] == rd[visited[k]]
    ensures ops[k].operationID == rd[visited[k]].operationID == RawAt(doc, visited[k]).operationID
  {
    ReadsOwnID(svc.name, doc, rd, visited[k]);
    assert ops[k] == Emitted(svc.name, doc, rd, visited, k);
  }

  lemma StubAt(svc: Service, doc: Document, rd: Reading, visited: seq<Slot>, ops: seq<Operation>, k: nat)
    requires k < |ops|
    requires IsReading(svc.name, doc, rd) && IsExtraction(svc.name, doc, rd, visited, ops)
    ensures ops[k].skipReason == DuplicateID <==> RawAt(doc, visited[k]).operationID in IDs(doc, visited[..k])
  {
    ReadsOwnID(svc.name, doc, rd, visited[k]);
    assert ops[k] == Emitted(svc.name, doc, rd, visited, k);
  }

  /** A document whose extraction holds no stub has distinct operationIds, and conversely. */
  lemma NoStubMeansDistinct(svc: Service, doc: Document, rd: Reading, visited: seq<Slot>, ops: seq<Operation>)
    requires IsReading(svc.name, doc, rd) && IsExtraction(svc.name, doc, rd, visited, ops)
    requires forall s :: s in visited <==> HasSlot(doc, s)
    ensures (forall k | 0 <= k < |ops| :: ops[k].skipReason != DuplicateID) <==> DistinctIDs(doc)
  {
    if k :| 0 <= k < |ops| && ops[k].skipReason == DuplicateID {
      StubMeansRepeated(svc, doc, rd, visited, ops, k);
    } else {
      forall s, t | HasSlot(doc, s) && HasSlot(doc, t) && s != t
        ensures RawAt(doc, s).operationID != RawAt(doc, t).operationID
      {
        SlotsDiffer(svc, doc, rd, visited, ops, s, t);
      }
    }
  }

  lemma SlotsDiffer(svc: Service, doc: Document, rd: Reading, visited: seq<Slot>, ops: seq<Operation>, s: Slot, t: Slot)
    requires IsReading(svc.name, doc, rd) && IsExtraction(svc.name, doc, rd, visited, ops)
    requires forall k | 0 <= k < |ops| :: ops[k].skipReason != DuplicateID
    requires HasSlot(doc, s) && HasSlot(doc, t) && s in visited && t in visited && s != t
    ensures RawAt(doc, s).operationID != RawAt(doc, t).operationID
  {
    var i :| 0 <= i < |visited| && visited[i] == s;
    var j :| 0 <= j < |visited| && visited[j] == t;
    LaterIDDiffers(svc, doc, rd, visited, ops, if i < j then i else j, if i < j then j else i);
  }

  lemma StubMeansRepeated(svc: Service, doc: Document, rd: Reading, visited: seq<Slot>, ops: seq<Operation>, k: nat)
    requires IsReading(svc.name, doc, rd) && IsExtraction(svc.name, doc, rd, visited, ops)
    requires k < |ops| && ops[k].skipReason == DuplicateID
    ensures !DistinctIDs(doc)
  {
    StubAt(svc, doc, rd, visited, ops, k);
    var j :| 0 <= j < k && RawAt(doc, visited[..k][j]).operationID == RawAt(doc, visited[k]).operationID;
    assert visited[j] != visited[k] && HasSlot(doc, visited[j]) && HasSlot(doc, visited[k]);
  }

  lemma LaterIDDiffers(svc: Service, doc: Document, rd: Reading, visited: seq<Slot>, ops: seq<Operation>, i: nat, j: nat)
    requires IsReading(svc.name, doc, rd) && IsExtraction(svc.name, doc, rd, visited, ops)
    requires i < j < |ops| && ops[j].skipReason != DuplicateID
    ensures HasSlot(doc, visited[i]) && HasSlot(doc, visited[j])
    ensures RawAt(doc, visited[i]).operationID != RawAt(doc, visited[j]).operationID
  {
    StubAt(svc, doc, rd, visited, ops, j);
    assert visited[..j][i] == visited[i];
  }

  datatype Verdict = Refuse | Skip | Add(meta: ToolMeta)

  /** The body of the operation loop: refuse the load, skip the operation, or add its tool. */
  method Judge(e: Engine, svc: Service, disc: Matcher, op: Operation, seen: set<string>, tools: set<string>,
               reserved: set<string>)
    returns (v: Verdict)
    requires forall c :: Matches(e, disc, c) <==> Exposes(e, svc.discovery, c)
    requires forall id | id in seen :: svc.prefix + id in tools
    ensures op.skipReason == DuplicateID ==> v == Refuse
    ensures op.skipReason != DuplicateID && !IsExposed(e, svc, op) ==> v == Skip
    ensures op.skipReason != DuplicateID && IsExposed(e, svc, op) ==>
              v == if ToolName(svc, op) in tools || ToolName(svc, op) in reserved then Refuse
                   else Add(BuildMeta(svc.prefix, op))
  {
    if op.skipReason == DuplicateID {
      return Refuse;
    }
    if op.skipReason != NotSkipped {
      return Skip;
    }
    var ok, _ := Match(e, disc, CandidateOf(op));
    if !ok {
      return Skip;
    }
    if op.operationID in seen {
      return Refuse;
    }
    var meta := BuildToolMeta(svc.prefix, op);
    if meta.name in tools {
      return Refuse;
    }
    if meta.name in reserved {
      return Refuse;
    }
    return Add(meta);
  }

  /** The operations to expose, in order. */
  ghost function Kept(e: Engine, svc: Service, ops: seq<Operation>): seq<Operation>
  {
    if ops == [] then []
    else
      var n := |ops| - 1;
      if IsExposed(e, svc, ops[n]) then Kept(e, svc, ops[..n]) + [ops[n]] else Kept(e, svc, ops[..n])
  }

  lemma {:induction false} KeptGrows(e: Engine, svc: Service, ops: seq<Operation>, k: nat)
    requires k <= |ops|
    ensures Kept(e, svc, ops[..k]) <= Kept(e, svc, ops)
  {
    var n := |ops|;
    if k == n {
      assert ops[..k] == ops;
    } else {
      KeptGrows(e, svc, ops[..n - 1], k);
      assert ops[..n - 1][..k] == ops[..k];
    }
  }

  function NamesOf(svc: Service, ops: seq<Operation>): (names: seq<string>)
    ensures |names| == |ops|
  {
    seq(|ops|, i requires 0 <= i < |ops| => ToolName(svc, ops[i]))
  }

  function ToolsOf(svc: Service, ops: seq<Operation>): (tools: seq<ToolMeta>)
    ensures |tools| == |ops|
  {
    seq(|ops|, i requires 0 <= i < |ops| => BuildMeta(svc.prefix, ops[i]))
  }

  /** The tools of the kept operations, added to those before. */
  function WithTools(svc: Service, kept: seq<Operation>, before: map<string, ToolMeta>): map<string, ToolMeta>
  {
    Fold(NamesOf(svc, kept), ToolsOf(svc, kept), before)
  }

  lemma OneMoreNamed(svc: Service, kept: seq<Operation>, op: Operation)
    ensures NamesOf(svc, kept + [op]) == NamesOf(svc, kept) + [ToolName(svc, op)]
  {
  }

  lemma OneMoreBuilt(svc: Service, kept: seq<Operation>, op: Operation)
    ensures ToolsOf(svc, kept + [op]) == ToolsOf(svc, kept) + [BuildMeta(svc.prefix, op)]
  {
  }

  /** Adding one operation whose name is free. */
  lemma WithOneMore(svc: Service, kept: seq<Operation>, before: map<string, ToolMeta>, reserved: set<string>, op: Operation)
    requires AreNew(NamesOf(svc, kept), before.Keys + reserved)
    requires ToolName(svc, op) !in WithTools(svc, kept, before) && ToolName(svc, op) !in reserved
    ensures WithTools(svc, kept + [op], before)
         == WithTools(svc, kept, before)[ToolName(svc, op) := BuildMeta(svc.prefix, op)]
    ensures AreNew(NamesOf(svc, kept + [op]), before.Keys + reserved)
  {
    var names, tools, name, meta := NamesOf(svc, kept), ToolsOf(svc, kept), ToolName(svc, op), BuildMeta(svc.prefix, op);
    OneMoreNamed(svc, kept, op);
    OneMoreBuilt(svc, kept, op);
    FoldGrows(names, tools, before, name, meta);
    FreshInFold(names, tools, before, name);
    NewGrows(names, name, before.Keys + reserved);
  }

  /** An exposed operation is kept right after the kept ones before it. */
  lemma KeptAt(e: Engine, svc: Service, ops: seq<Operation>, k: nat)
    requires k < |ops| && IsExposed(e, svc, ops[k])
    ensures Kept(e, svc, ops[..k]) + [ops[k]] <= Kept(e, svc, ops)
  {
    assert ops[..k + 1][..k] == ops[..k];
    assert Kept(e, svc, ops[..k + 1]) == Kept(e, svc, ops[..k]) + [ops[k]];
    KeptGrows(e, svc, ops, k + 1);
  }

  /** A name that is taken when its operation is reached stays in the way. */
  lemma TakenStaysInTheWay(svc: Service, kept: seq<Operation>, op: Operation, all: seq<Operation>,
                           before: map<string, ToolMeta>, reserved: set<string>)
    requires kept + [op] <= all && AreNew(NamesOf(svc, kept), before.Keys + reserved)
    requires ToolName(svc, op) in WithTools(svc, kept, before) || ToolName(svc, op) in reserved
    ensures !AreNew(NamesOf(svc, all), before.Keys + reserved)
  {
    var names, n, taken := NamesOf(svc, kept), ToolName(svc, op), before.Keys + reserved;
    FreshInFold(names, ToolsOf(svc, kept), before, n);
    NewGrows(names, n, taken);
    assert NamesOf(svc, all)[..|kept| + 1] == names + [n];
    if AreNew(NamesOf(svc, all), taken) {
      NewPrefix(NamesOf(svc, all), |kept| + 1, taken);
    }
  }

  predicate HasNoStub(ops: seq<Operation>)
  {
    ops == [] || (HasNoStub(ops[..|ops| - 1]) && ops[|ops| - 1].skipReason != DuplicateID)
  }

  lemma {:induction false} HasNoStubMeans(ops: seq<Operation>)
    ensures HasNoStub(ops) <==> forall k | 0 <= k < |ops| :: ops[k].skipReason != DuplicateID
  {
    if ops != [] {
      HasNoStubMeans(ops[..|ops| - 1]);
      assert forall k | 0 <= k < |ops| - 1 :: ops[k] == ops[..|ops| - 1][k];
    }
  }

  lemma OneMoreOperation(e: Engine, svc: Service, ops: seq<Operation>, k: nat)
    requires k < |ops|
    ensures HasNoStub(ops[..k + 1]) <==> HasNoStub(ops[..k]) && ops[k].skipReason != DuplicateID
    ensures Kept(e, svc, ops[..k + 1])
         == if IsExposed(e, svc, ops[k]) then Kept(e, svc, ops[..k]) + [ops[k]] else Kept(e, svc, ops[..k])
  {
    assert ops[..k + 1][..k] == ops[..k];
  }

  /** An operation that is refused when it is reached rules out the whole list. */
  lemma RefusalRulesOut(e: Engine, svc: Service, ops: seq<Operation>, k: nat,
                        before: map<string, ToolMeta>, reserved: set<string>)
    requires k < |ops| && AreNew(NamesOf(svc, Kept(e, svc, ops[..k])), before.Keys + reserved)
    requires || ops[k].skipReason == DuplicateID
             || (IsExposed(e, svc, ops[k])
                 && (ToolName(svc, ops[k]) in WithTools(svc, Kept(e, svc, ops[..k]), before) || ToolName(svc, ops[k]) in reserved))
    ensures !(HasNoStub(ops) && AreNew(NamesOf(svc, Kept(e, svc, ops)), before.Keys + reserved))
  {
    if ops[k].skipReason == DuplicateID {
      HasNoStubMeans(ops);
    } else {
      KeptAt(e, svc, ops, k);
      TakenStaysInTheWay(svc, Kept(e, svc, ops[..k]), ops[k], Kept(e, svc, ops), before, reserved);
    }
  }

  /** The operation loop of one service. */
  method AddTools(e: Engine, svc: Service, disc: Matcher, ops: seq<Operation>,
                  before: map<string, ToolMeta>, reserved: set<string>)
    returns (r: Result<(map<string, ToolMeta>, nat)>)
    requires forall c :: Matches(e, disc, c) <==> Exposes(e, svc.discovery, c)
    ensures r.Ok? <==> HasNoStub(ops) && AreNew(NamesOf(svc, Kept(e, svc, ops)), before.Keys + reserved)
    ensures r.Ok? ==> r.value == (WithTools(svc, Kept(e, svc, ops), before), |Kept(e, svc, ops)|)
  {
    var tools, seen, count := before, {}, 0;
    ghost var kept: seq<Operation> := [];
    for k := 0 to |ops|
      invariant HasNoStub(ops[..k])
      invariant kept == Kept(e, svc, ops[..k])
      invariant AreNew(NamesOf(svc, kept), before.Keys + reserved)
      invariant tools == WithTools(svc, kept, before)
      invariant count == |kept|
      invariant forall id | id in seen :: svc.prefix + id in tools.Keys
    {
      var v := Judge(e, svc, disc, ops[k], seen, tools.Keys, reserved);
      OneMoreOperation(e, svc, ops, k);
      match v {
        case Refuse =>
          RefusalRulesOut(e, svc, ops, k, before, reserved);
          return Err;
        case Skip =>
        case Add(meta) =>
          WithOneMore(svc, kept, before, reserved, ops[k]);
          tools := tools[meta.name := meta];
          seen := seen + {ops[k].operationID};
          count := count + 1;
          kept := kept + [ops[k]];
      }
    }
    assert ops[..|ops|] == ops;
    return Ok((tools, count));
  }

  // ---------- Operations and slots ----------

  /** The exposed slots in visiting order. */
  ghost function KeptSlots(e: Engine, svc: Service, rd: Reading, visited: seq<Slot>): seq<Slot>
    requires forall i | 0 <= i < |visited| :: visited[i] in rd
  {
    if visited == [] then []
    else
      var n := |visited| - 1;
      if IsExposed(e, svc, rd[visited[n]]) then KeptSlots(e, svc, rd, visited[..n]) + [visited[n]]
      else KeptSlots(e, svc, rd, visited[..n])
  }

  lemma {:induction false} KeptSlotsAreExposed(e: Engine, svc: Service, rd: Reading, visited: seq<Slot>)
    requires forall i | 0 <= i < |visited| :: visited[i] in rd
    requires forall i, j | 0 <= i < j < |visited| :: visited[i] != visited[j]
    ensures var slots := KeptSlots(e, svc, rd, visited);
            && (forall s :: s in slots <==> s in visited && IsExposed(e, svc, rd[s]))
            && forall i, j | 0 <= i < j < |slots| :: slots[i] != slots[j]
  {
    if visited != [] {
      var n := |visited| - 1;
      KeptSlotsAreExposed(e, svc, rd, visited[..n]);
      assert visited == visited[..n] + [visited[n]];
    }
  }

  lemma {:induction false} KeptAreKeptSlots(e: Engine, svc: Service, rd: Reading, visited: seq<Slot>, ops: seq<Operation>)
    requires |ops| == |visited| && forall i | 0 <= i < |visited| :: visited[i] in rd && ops[i] == rd[visited[i]]
    ensures var slots, kept := KeptSlots(e, svc, rd, visited), Kept(e, svc, ops);
            |slots| == |kept| && forall i | 0 <= i < |slots| :: slots[i] in rd && kept[i] == rd[slots[i]]
  {
    if visited != [] {
      var n := |visited| - 1;
      KeptAreKeptSlots(e, svc, rd, visited[..n], ops[..n]);
    }
  }

  /** `slots` lists the exposed slots without repetition and `kept` their operations. */
  ghost predicate AreKept(e: Engine, svc: Service, rd: Reading, slots: seq<Slot>, kept: seq<Operation>)
  {
    && (forall s :: s in slots <==> s in Exposed(e, svc, rd))
    && (forall i, j | 0 <= i < j < |slots| :: slots[i] != slots[j])
    && |kept| == |slots|
    && forall i | 0 <= i < |slots| :: slots[i] in rd && kept[i] == rd[slots[i]]
  }

  lemma ExtractionKeeps(e: Engine, svc: Service, doc: Document, rd: Reading, visited: seq<Slot>, ops: seq<Operation>)
    returns (slots: seq<Slot>)
    requires IsReading(svc.name, doc, rd) && IsExtraction(svc.name, doc, rd, visited, ops)
    requires forall s :: s in visited <==> HasSlot(doc, s)
    requires HasNoStub(ops)
    ensures AreKept(e, svc, rd, slots, Kept(e, svc, ops))
  {
    HasNoStubMeans(ops);
    forall k | 0 <= k < |ops| ensures visited[k] in rd && ops[k] == rd[visited[k]] {
      OperationAt(svc, doc, rd, visited, ops, k);
    }
    slots := KeptSlots(e, svc, rd, visited);
    KeptSlotsAreExposed(e, svc, rd, visited);
    KeptAreKeptSlots(e, svc, rd, visited, ops);
  }

  /** With distinct operationIds, the kept names are new exactly when the exposed ones are not taken. */
  lemma KeptNamesAreExposedNames(e: Engine, svc: Service, doc: Document, rd: Reading, slots: seq<Slot>, kept: seq<Operation>)
    requires IsReading(svc.name, doc, rd) && DistinctIDs(doc)
    requires AreKept(e, svc, rd, slots, kept)
    ensures forall n :: n in NamesOf(svc, kept) <==> n in ToolNames(e, svc, rd)
    ensures forall taken :: AreNew(NamesOf(svc, kept), taken) <==> AreDisjoint(ToolNames(e, svc, rd), taken)
  {
    var names := NamesOf(svc, kept);
    forall i, j | 0 <= i < j < |slots| ensures names[i] != names[j] {
      ReadsOwnID(svc.name, doc, rd, slots[i]);
      ReadsOwnID(svc.name, doc, rd, slots[j]);
      PrefixCancels(svc.prefix, kept[i].operationID, kept[j].operationID);
    }
    forall n ensures n in names <==> n in ToolNames(e, svc, rd) {
      if n in names {
        var i :| 0 <= i < |kept| && names[i] == n;
        assert slots[i] in slots;
      }
      if n in ToolNames(e, svc, rd) {
        var s :| s in Exposed(e, svc, rd) && ToolName(svc, rd[s]) == n;
        var i :| 0 <= i < |slots| && slots[i] == s;
        assert names[i] == n;
      }
    }
  }

  /** With distinct operationIds every exposed operation has its tool, and there are no other tools. */
  lemma ServiceToolsAreExposed(e: Engine, svc: Service, doc: Document, rd: Reading)
    requires IsReading(svc.name, doc, rd) && DistinctIDs(doc)
    ensures forall s | s in Exposed(e, svc, rd) ::
              && ToolName(svc, rd[s]) in ServiceTools(e, svc, rd)
              && ServiceTools(e, svc, rd)[ToolName(svc, rd[s])] == BuildMeta(svc.prefix, rd[s])
    ensures ServiceTools(e, svc, rd).Keys == ToolNames(e, svc, rd)
  {
    forall s | s in Exposed(e, svc, rd)
      ensures ToolName(svc, rd[s]) in ToolNames(e, svc, rd) && SlotOf(e, svc, rd, ToolName(svc, rd[s])) == s
    {
      var t := SlotOf(e, svc, rd, ToolName(svc, rd[s]));
      ReadsOwnID(svc.name, doc, rd, s);
      ReadsOwnID(svc.name, doc, rd, t);
      PrefixCancels(svc.prefix, rd[s].operationID, rd[t].operationID);
    }
  }

  lemma KeptToolsMatch(e: Engine, svc: Service, doc: Document, rd: Reading, slots: seq<Slot>, kept: seq<Operation>)
    requires IsReading(svc.name, doc, rd) && DistinctIDs(doc)
    requires AreKept(e, svc, rd, slots, kept)
    ensures forall i | 0 <= i < |kept| :: NamesOf(svc, kept)[i] in ServiceTools(e, svc, rd)
                                          && ServiceTools(e, svc, rd)[NamesOf(svc, kept)[i]] == ToolsOf(svc, kept)[i]
  {
    ServiceToolsAreExposed(e, svc, doc, rd);
    forall i | 0 <= i < |kept|
      ensures NamesOf(svc, kept)[i] in ServiceTools(e, svc, rd)
      ensures ServiceTools(e, svc, rd)[NamesOf(svc, kept)[i]] == ToolsOf(svc, kept)[i]
    {
      assert slots[i] in slots;
    }
  }

  lemma KeptSize(e: Engine, svc: Service, rd: Reading, slots: seq<Slot>, kept: seq<Operation>)
    requires AreKept(e, svc, rd, slots, kept)
    ensures |kept| == |Exposed(e, svc, rd)|
  {
    DistinctSize(slots);
    assert (set s | s in slots) == Exposed(e, svc, rd);
  }

  /** The kept operations yield the tools of the service. */
  lemma KeptYieldTools(e: Engine, svc: Service, doc: Document, rd: Reading, slots: seq<Slot>, kept: seq<Operation>,
                       before: map<string, ToolMeta>)
    requires IsReading(svc.name, doc, rd) && DistinctIDs(doc)
    requires AreKept(e, svc, rd, slots, kept)
    requires AreNew(NamesOf(svc, kept), before.Keys)
    ensures WithTools(svc, kept, before) == before + ServiceTools(e, svc, rd)
    ensures |kept| == |ServiceTools(e, svc, rd)|
  {
    var names, tools, ours := NamesOf(svc, kept), ToolsOf(svc, kept), ServiceTools(e, svc, rd);
    assert forall n :: n in names <==> n in ours by {
      KeptNamesAreExposedNames(e, svc, doc, rd, slots, kept);
      ServiceToolsAreExposed(e, svc, doc, rd);
    }
    assert forall i | 0 <= i < |names| :: names[i] in ours && ours[names[i]] == tools[i] by {
      KeptToolsMatch(e, svc, doc, rd, slots, kept);
    }
    FoldIsUnion(names, tools, before, ours);
  }

  lemma FreeNamesLoad(e: Engine, svc: Service, doc: Document, rd: Reading, slots: seq<Slot>, kept: seq<Operation>,
                      before: map<string, ToolMeta>, reserved: set<string>)
    requires LoadDoc(svc.decoded) == Ok(doc) && Compiles(e, svc.discovery)
    requires IsReading(svc.name, doc, rd) && DistinctIDs(doc)
    requires AreKept(e, svc, rd, slots, kept)
    ensures AreNew(NamesOf(svc, kept), before.Keys + reserved)
       <==> ServiceCanLoad(e, svc, rd, reserved) && AreDisjoint(ServiceTools(e, svc, rd).Keys, before.Keys)
  {
    KeptNamesAreExposedNames(e, svc, doc, rd, slots, kept);
    assert AreNew(NamesOf(svc, kept), before.Keys + reserved)
      <==> AreDisjoint(ToolNames(e, svc, rd), before.Keys + reserved);
  }

  /** What the operation loop decides, seen from the document. */
  lemma ExtractionMeansLoad(e: Engine, svc: Service, doc: Document, rd: Reading, visited: seq<Slot>, ops: seq<Operation>,
                            before: map<string, ToolMeta>, reserved: set<string>, fits: bool)
    requires LoadDoc(svc.decoded) == Ok(doc) && Compiles(e, svc.discovery)
    requires IsReading(svc.name, doc, rd) && IsExtraction(svc.name, doc, rd, visited, ops)
    requires forall s :: s in visited <==> HasSlot(doc, s)
    requires fits <==> HasNoStub(ops) && AreNew(NamesOf(svc, Kept(e, svc, ops)), before.Keys + reserved)
    ensures fits <==> ServiceCanLoad(e, svc, rd, reserved) && AreDisjoint(ServiceTools(e, svc, rd).Keys, before.Keys)
    ensures fits ==> && WithTools(svc, Kept(e, svc, ops), before) == before + ServiceTools(e, svc, rd)
                     && |Kept(e, svc, ops)| == |ServiceTools(e, svc, rd)|
  {
    HasNoStubMeans(ops);
    NoStubMeansDistinct(svc, doc, rd, visited, ops);
    if HasNoStub(ops) {
      var kept := Kept(e, svc, ops);
      var slots := ExtractionKeeps(e, svc, doc, rd, visited, ops);
      FreeNamesLoad(e, svc, doc, rd, slots, kept, before, reserved);
      if fits {
        assert AreNew(NamesOf(svc, kept), before.Keys);
        KeptYieldTools(e, svc, doc, rd, slots, kept, before);
      }
    }
  }

  /** A service loads exactly when it can beside `before`, and adds its tools to them. */
  ghost predicate IsServiceLoad(e: Engine, svc: Service, rd: Reading, before: map<string, ToolMeta>, reserved: set<string>,
                                r: Result<(map<string, ToolMeta>, nat)>)
  {
    && (r.Ok? <==> ServiceCanLoad(e, svc, rd, reserved) && AreDisjoint(ServiceTools(e, svc, rd).Keys, before.Keys))
    && (r.Ok? ==> r.value == (before + ServiceTools(e, svc, rd), |ServiceTools(e, svc, rd)|))
  }

  /** One turn of the service loop; `before` holds the tools of the services before it. */
  method LoadService(e: Engine, svc: Service, before: map<string, ToolMeta>, reserved: set<string>)
    returns (r: Result<(map<string, ToolMeta>, nat)>)
    ensures exists rd :: IsServiceReading(svc, rd) && IsServiceLoad(e, svc, rd, before, reserved, r)
  {
    ghost var some := SomeReading(svc);
    var loaded := LoadDoc(svc.decoded);
    if loaded.Err? {
      assert IsServiceLoad(e, svc, some, before, reserved, Err);
      return Err;
    }
    var doc := loaded.value;
    var disc := NewDiscoveryMatcher(e, svc.discovery);
    if disc.Err? {
      assert IsServiceLoad(e, svc, some, before, reserved, Err);
      return Err;
    }
    var ops := ExtractOperations(svc.name, doc);
    r := AddTools(e, svc, disc.value, ops, before, reserved);
    ghost var rd, visited :| IsFullExtraction(svc.name, doc, rd, visited, ops);
    ExtractionMeansLoad(e, svc, doc, rd, visited, ops, before, reserved, r.Ok?);
    assert IsServiceLoad(e, svc, rd, before, reserved, r);
  }

  // ---------- Loading all services ----------

  /** Readings for the services that were not reached. */
  lemma MoreReadings(apis: seq<Service>, rds: seq<Reading>) returns (all: seq<Reading>)
    requires |rds| <= |apis| && AreReadings(apis[..|rds|], rds)
    ensures AreReadings(apis, all) && rds <= all
    decreases |apis| - |rds|
  {
    if |rds| == |apis| {
      assert apis[..|rds|] == apis;
      all := rds;
    } else {
      var rd := SomeReading(apis[|rds|]);
      all := MoreReadings(apis, rds + [rd]);
    }
  }

  lemma YieldsGrow(e: Engine, apis: seq<Service>, rds: seq<Reading>, svc: Service, rd: Reading)
    requires |rds| == |apis|
    ensures Yields(e, apis + [svc], rds + [rd]) == Yields(e, apis, rds) + [ServiceTools(e, svc, rd)]
    ensures ServiceNames(apis + [svc]) == ServiceNames(apis) + [svc.name]
  {
  }

  /** A service that loads beside the ones before it extends the load. */
  lemma LoadExtends(e: Engine, apis: seq<Service>, rds: seq<Reading>,
                    tools: map<string, ToolMeta>, byAPI: map<string, nat>, svc: Service, rd: Reading)
    requires |rds| == |apis| && IsLoaded(e, apis, rds, tools, byAPI)
    requires AreDisjoint(ServiceTools(e, svc, rd).Keys, tools.Keys)
    ensures IsLoaded(e, apis + [svc], rds + [rd],
                     tools + ServiceTools(e, svc, rd), byAPI[svc.name := |ServiceTools(e, svc, rd)|])
  {
    var names, ms, m := ServiceNames(apis), Yields(e, apis, rds), ServiceTools(e, svc, rd);
    YieldsGrow(e, apis, rds, svc, rd);
    assert forall n | n in m :: n in m.Keys;
    StoreOne(names, ms, tools, byAPI, svc.name, m);
  }

  /** What the service loop keeps: the services in `done` are loaded. */
  ghost predicate IsLoadedSoFar(e: Engine, done: seq<Service>, rds: seq<Reading>, reserved: set<string>,
                                tools: map<string, ToolMeta>, byAPI: map<string, nat>)
  {
    && AreReadings(done, rds)
    && AllCanLoad(e, done, rds, reserved)
    && IsLoaded(e, done, rds, tools, byAPI)
  }

  lemma TurnSucceeds(e: Engine, done: seq<Service>, rds: seq<Reading>, reserved: set<string>,
                     tools: map<string, ToolMeta>, byAPI: map<string, nat>, svc: Service, rd: Reading)
    requires IsLoadedSoFar(e, done, rds, reserved, tools, byAPI)
    requires IsServiceReading(svc, rd) && ServiceCanLoad(e, svc, rd, reserved)
    requires AreDisjoint(ServiceTools(e, svc, rd).Keys, tools.Keys)
    ensures IsLoadedSoFar(e, done + [svc], rds + [rd], reserved,
                          tools + ServiceTools(e, svc, rd), byAPI[svc.name := |ServiceTools(e, svc, rd)|])
  {
    OneMoreCanLoad(e, done, rds, reserved, svc, rd);
    LoadExtends(e, done, rds, tools, byAPI, svc, rd);
  }

  lemma OneMoreCanLoad(e: Engine, apis: seq<Service>, rds: seq<Reading>, reserved: set<string>, svc: Service, rd: Reading)
    requires AreReadings(apis, rds) && AllCanLoad(e, apis, rds, reserved)
    requires IsServiceReading(svc, rd) && ServiceCanLoad(e, svc, rd, reserved)
    ensures AreReadings(apis + [svc], rds + [rd]) && AllCanLoad(e, apis + [svc], rds + [rd], reserved)
  {
  }

  /** A service that does not load beside the ones before it rules out the whole load. */
  lemma TurnFails(e: Engine, apis: seq<Service>, rds: seq<Reading>, reserved: set<string>, k: nat,
                  tools: map<string, ToolMeta>, byAPI: map<string, nat>, rd: Reading)
    returns (all: seq<Reading>)
    requires k < |apis| && IsLoadedSoFar(e, apis[..k], rds, reserved, tools, byAPI)
    requires IsServiceReading(apis[k], rd)
    requires !(ServiceCanLoad(e, apis[k], rd, reserved) && AreDisjoint(ServiceTools(e, apis[k], rd).Keys, tools.Keys))
    ensures AreReadings(apis, all) && !CanLoad(e, apis, all, reserved)
  {
    all := ReadingsFrom(apis, rds, k, rd);
    if ServiceCanLoad(e, apis[k], rd, reserved) {
      TakenNameRulesOut(e, apis, all, k, tools, byAPI);
    } else {
      assert !AllCanLoad(e, apis, all, reserved);
    }
  }

  lemma ReadingsFrom(apis: seq<Service>, rds: seq<Reading>, k: nat, rd: Reading) returns (all: seq<Reading>)
    requires k < |apis| && AreReadings(apis[..k], rds) && IsServiceReading(apis[k], rd)
    ensures AreReadings(apis, all) && all[..k] == rds && all[k] == rd
  {
    assert apis[..k + 1] == apis[..k] + [apis[k]];
    all := MoreReadings(apis, rds + [rd]);
  }

  lemma YieldsPrefix(e: Engine, apis: seq<Service>, rds: seq<Reading>, k: nat)
    requires k <= |apis| == |rds|
    ensures Yields(e, apis, rds)[..k] == Yields(e, apis[..k], rds[..k])
  {
  }

  lemma TakenNameRulesOut(e: Engine, apis: seq<Service>, all: seq<Reading>, k: nat,
                          tools: map<string, ToolMeta>, byAPI: map<string, nat>)
    requires k < |apis| == |all| && IsLoaded(e, apis[..k], all[..k], tools, byAPI)
    requires !AreDisjoint(ServiceTools(e, apis[k], all[k]).Keys, tools.Keys)
    ensures !ArePairwiseDisjoint(Yields(e, apis, all))
  {
    var ms := Yields(e, apis, all);
    YieldsPrefix(e, apis, all, k);
    var n :| n in ServiceTools(e, apis[k], all[k]).Keys && n in tools.Keys;
    assert n in ms[k] && n in Merge(ms[..k]);
    StoreConflict(ms, k, n);
  }

  /** One turn of the service loop, for the readings so far and the one the service was loaded with. */
  lemma Turn(e: Engine, apis: seq<Service>, rds: seq<Reading>, reserved: set<string>, k: nat,
             tools: map<string, ToolMeta>, byAPI: map<string, nat>, loaded: Result<(map<string, ToolMeta>, nat)>)
    returns (rds': seq<Reading>)
    requires k < |apis| && IsLoadedSoFar(e, apis[..k], rds, reserved, tools, byAPI)
    requires exists rd :: IsServiceReading(apis[k], rd) && IsServiceLoad(e, apis[k], rd, tools, reserved, loaded)
    ensures loaded.Ok? ==>
              IsLoadedSoFar(e, apis[..k + 1], rds', reserved, loaded.value.0, byAPI[apis[k].name := loaded.value.1])
    ensures loaded.Err? ==> AreReadings(apis, rds') && IsLoadOf(e, apis, rds', reserved, Err)
  {
    var rd :| IsServiceReading(apis[k], rd) && IsServiceLoad(e, apis[k], rd, tools, reserved, loaded);
    if loaded.Err? {
      rds' := TurnFails(e, apis, rds, reserved, k, tools, byAPI, rd);
    } else {
      rds' := rds + [rd];
      PrefixLoads(e, apis, rds, reserved, k, tools, byAPI, rd);
    }
  }

  lemma PrefixLoads(e: Engine, apis: seq<Service>, rds: seq<Reading>, reserved: set<string>, k: nat,
                    tools: map<string, ToolMeta>, byAPI: map<string, nat>, rd: Reading)
    requires k < |apis| && IsLoadedSoFar(e, apis[..k], rds, reserved, tools, byAPI)
    requires IsServiceReading(apis[k], rd) && ServiceCanLoad(e, apis[k], rd, reserved)
    requires AreDisjoint(ServiceTools(e, apis[k], rd).Keys, tools.Keys)
    ensures IsLoadedSoFar(e, apis[..k + 1], rds + [rd], reserved, tools + ServiceTools(e, apis[k], rd),
                          byAPI[apis[k].name := |ServiceTools(e, apis[k], rd)|])
  {
    TakeOneMore(apis, k);
    TurnSucceeds(e, apis[..k], rds, reserved, tools, byAPI, apis[k], rd);
  }

  /** The services load exactly when they can, and to what they yield. */
  ghost predicate IsLoadOf(e: Engine, apis: seq<Service>, rds: seq<Reading>, reserved: set<string>,
                           r: Result<(map<string, ToolMeta>, map<string, nat>)>)
    requires |rds| == |apis|
  {
    && (r.Ok? <==> CanLoad(e, apis, rds, reserved))
    && (r.Ok? ==> IsLoaded(e, apis, rds, r.value.0, r.value.1))
  }

  lemma AllLoaded(e: Engine, apis: seq<Service>, rds: seq<Reading>, reserved: set<string>,
                  tools: map<string, ToolMeta>, byAPI: map<string, nat>)
    requires IsLoadedSoFar(e, apis, rds, reserved, tools, byAPI)
    ensures AreReadings(apis, rds) && IsLoadOf(e, apis, rds, reserved, Ok((tools, byAPI)))
  {
  }

  /** The service loop: fills new maps, and gives up at the first service that does not load. */
  method LoadServices(e: Engine, apis: seq<Service>, reserved: set<string>)
    returns (r: Result<(map<string, ToolMeta>, map<string, nat>)>)
    ensures exists rds :: AreReadings(apis, rds) && IsLoadOf(e, apis, rds, reserved, r)
  {
    var newTools: map<string, ToolMeta> := map[];
    var newByAPI: map<string, nat> := map[];
    ghost var rds: seq<Reading> := [];
    for k := 0 to |apis|
      invariant IsLoadedSoFar(e, apis[..k], rds, reserved, newTools, newByAPI)
    {
      var loaded := LoadService(e, apis[k], newTools, reserved);
      rds := Turn(e, apis, rds, reserved, k, newTools, newByAPI, loaded);
      if loaded.Err? {
        return Err;
      }
      newTools := loaded.value.0;
      newByAPI := newByAPI[apis[k].name := loaded.value.1];
    }
    assert apis[..|apis|] == apis;
    AllLoaded(e, apis, rds, reserved, newTools, newByAPI);
    return Ok((newTools, newByAPI));
  }

  /** What a tool call comes to. */
  datatype Outcome =
    | ToolNotFound
    | InvalidParams
    | ServiceNotFound
    | Sent(apiName: string, method_: string, path: string, request: Request)

  class Registry {
    var tools: map<string, ToolMeta>
    var byAPI: map<string, nat>

    constructor ()
      ensures tools == map[] && byAPI == map[]
    {
      tools, byAPI := map[], map[];
    }

    /**
     * Builds the tools of all services and swaps them in at the end; `reserved` are the plugin names as
     * the provider gave them at the start. The load succeeds exactly when it can, and then the stores are
     * exactly what the services yield; a failure changes nothing.
     */
    method Load(e: Engine, apis: seq<Service>, reserved: set<string>) returns (r: Result<nat>, ghost rds: seq<Reading>)
      modifies this
      ensures AreReadings(apis, rds)
      ensures r.Ok? <==> CanLoad(e, apis, rds, reserved)
      ensures r.Ok? ==> IsLoaded(e, apis, rds, tools, byAPI) && r.value == |tools|
      ensures r.Err? ==> tools == old(tools) && byAPI == old(byAPI)
    {
      var loaded := LoadServices(e, apis, reserved);
      rds :| AreReadings(apis, rds) && IsLoadOf(e, apis, rds, reserved, loaded);
      if loaded.Err? {
        return Err, rds;
      }
      tools := loaded.value.0;
      byAPI := loaded.value.1;
      return Ok(|tools|), rds;
    }

    method Get(name: string) returns (t: Option<ToolMeta>)
      ensures t == if name in tools then Some(tools[name]) else None
    {
      t := if name in tools then Some(tools[name]) else None;
    }

    method CountForAPI(name: string) returns (n: nat)
      ensures n == if name in byAPI then byAPI[name] else 0
    {
      n := if name in byAPI then byAPI[name] else 0;
    }

    /** The names in map order: each tool once. */
    method Names() returns (out: seq<string>)
      ensures forall n :: n in out <==> n in tools
      ensures |out| == |tools|
    {
      out := [];
      var pending := tools.Keys;
      while pending != {}
        invariant pending <= tools.Keys
        invariant forall n :: n in out <==> n in tools && n !in pending
        invariant |out| + |pending| == |tools|
        decreases |pending|
      {
        var n :| n in pending;
        pending := pending - {n};
        out := out + [n];
      }
    }

    /** The tools sorted by name, which is the key each is stored under. */
    method List() returns (out: seq<ToolMeta>)
      ensures exists names :: IsOrder(names, tools) && AreValues(names, tools, out) && Sorting.IsSorted(names)
    {
      var unsorted := Names();
      NoRepeats(unsorted, tools.Keys);
      Sorting.SortSorts(unsorted);
      var sorted := Sorting.Sort(unsorted);
      out := [];
      for i := 0 to |sorted|
        invariant |out| == i && forall j | 0 <= j < i :: sorted[j] in tools && out[j] == tools[sorted[j]]
      {
        assert sorted[i] in sorted;
        out := out + [tools[sorted[i]]];
      }
      assert IsOrder(sorted, tools) && AreValues(sorted, tools, out);
    }

    /** Validates the arguments, fills the path, routes the rest and addresses the tool's service. */
    method Call(name: string, args: Args, show: Json -> string, services: set<string>) returns (o: Outcome)
      ensures o.ToolNotFound? <==> name !in tools
      ensures name in tools ==>
                (o.InvalidParams? <==> !(IsValidCall(tools[name], args) && CanFill(tools[name].path, args)))
      ensures o.ServiceNotFound? ==> tools[name].apiName !in services
      ensures o.Sent? ==>
                && tools[name].apiName in services
                && o.apiName == tools[name].apiName && o.method_ == tools[name].method_
                && o.path == Filled(tools[name].path, Shown(args, show))
                && o.request == Routed(tools[name], args, show)
                && IsPathFor(tools[name].path, args, show, o.path)
                && IsRequestFor(tools[name], args, show, o.request)
    {
      if name !in tools {
        return ToolNotFound;
      }
      var tool := tools[name];
      var ok := ValidateArgs(tool, args);
      if !ok {
        return InvalidParams;
      }
      var path := FillPath(tool.path, args, show);
      if path.Err? {
        return InvalidParams;
      }
      var request := RouteArgs(tool, args, show);
      if tool.apiName !in services {
        return ServiceNotFound;
      }
      return Sent(tool.apiName, tool.method_, path.value, request);
    }
  }

  // ---------- Main results ----------

  /** Every exposed operation has its tool. */
  lemma ExposedIsTool(e: Engine, apis: seq<Service>, rds: seq<Reading>, reserved: set<string>,
                      tools: map<string, ToolMeta>, byAPI: map<string, nat>, i: nat, s: Slot)
    requires AreReadings(apis, rds) && CanLoad(e, apis, rds, reserved) && IsLoaded(e, apis, rds, tools, byAPI)
    requires i < |apis| && s in Exposed(e, apis[i], rds[i])
    ensures ToolName(apis[i], rds[i][s]) in tools
    ensures tools[ToolName(apis[i], rds[i][s])] == BuildMeta(apis[i].prefix, rds[i][s])
  {
    var svc, rd := apis[i], rds[i];
    assert ServiceCanLoad(e, svc, rd, reserved) && IsServiceReading(svc, rd);
    ServiceToolsAreExposed(e, svc, svc.decoded.value, rd);
    MergeKeeps(Yields(e, apis, rds), i, ToolName(svc, rd[s]));
  }

  /** The tool of an operation carries the name of its service. */
  lemma BuiltForService(svc: Service, rd: Reading, s: Slot)
    requires IsServiceReading(svc, rd) && s in rd
    ensures BuildMeta(svc.prefix, rd[s]).apiName == svc.name
    ensures BuildMeta(svc.prefix, rd[s]).name == ToolName(svc, rd[s])
  {
    var doc := svc.decoded.value;
    var picked :| CanPickFor(RawAt(doc, s), picked) && rd[s] == OperationWith(svc.name, doc, s, picked);
  }

  /** Every tool is that of an exposed operation, and carries its own name and the name of its service. */
  lemma ToolIsExposed(e: Engine, apis: seq<Service>, rds: seq<Reading>, reserved: set<string>,
                      tools: map<string, ToolMeta>, byAPI: map<string, nat>, name: string)
    returns (i: nat, s: Slot)
    requires AreReadings(apis, rds) && CanLoad(e, apis, rds, reserved) && IsLoaded(e, apis, rds, tools, byAPI)
    requires name in tools
    ensures i < |apis| && s in Exposed(e, apis[i], rds[i]) && ToolName(apis[i], rds[i][s]) == name
    ensures tools[name].name == name && tools[name].apiName == apis[i].name && name !in reserved
  {
    i, s := ToolComesFrom(e, apis, rds, tools, byAPI, name);
    ExposedIsTool(e, apis, rds, reserved, tools, byAPI, i, s);
    assert IsServiceReading(apis[i], rds[i]);
    BuiltForService(apis[i], rds[i], s);
    NotReserved(e, apis[i], rds[i], reserved, s);
  }

  lemma NotReserved(e: Engine, svc: Service, rd: Reading, reserved: set<string>, s: Slot)
    requires ServiceCanLoad(e, svc, rd, reserved) && s in Exposed(e, svc, rd)
    ensures ToolName(svc, rd[s]) !in reserved
  {
    assert ToolName(svc, rd[s]) in ToolNames(e, svc, rd);
  }

  lemma ToolComesFrom(e: Engine, apis: seq<Service>, rds: seq<Reading>,
                      tools: map<string, ToolMeta>, byAPI: map<string, nat>, name: string)
    returns (i: nat, s: Slot)
    requires |rds| == |apis| && IsLoaded(e, apis, rds, tools, byAPI) && name in tools
    ensures i < |apis| && s in Exposed(e, apis[i], rds[i]) && ToolName(apis[i], rds[i][s]) == name
  {
    MergeHas(Yields(e, apis, rds), name);
    i :| 0 <= i < |apis| && name in Yields(e, apis, rds)[i];
    s := SlotOf(e, apis[i], rds[i], name);
  }

  /**
   * The tools after a load are exactly the exposed operations under their prefixed names, none of them
   * reserved and each bound to a service of the load.
   */
  lemma LoadedToolsAreExposed(e: Engine, apis: seq<Service>, rds: seq<Reading>, reserved: set<string>,
                              tools: map<string, ToolMeta>, byAPI: map<string, nat>)
    requires AreReadings(apis, rds) && CanLoad(e, apis, rds, reserved) && IsLoaded(e, apis, rds, tools, byAPI)
    ensures forall n :: n in tools <==>
              exists i, s :: 0 <= i < |apis| && s in Exposed(e, apis[i], rds[i]) && ToolName(apis[i], rds[i][s]) == n
    ensures forall n | n in tools ::
              n !in reserved && tools[n].name == n && exists i | 0 <= i < |apis| :: apis[i].name == tools[n].apiName
  {
    forall n ensures n in tools <==>
              exists i, s :: 0 <= i < |apis| && s in Exposed(e, apis[i], rds[i]) && ToolName(apis[i], rds[i][s]) == n
    {
      if n in tools {
        var i, s := ToolIsExposed(e, apis, rds, reserved, tools, byAPI, n);
      } else {
        forall i, s | 0 <= i < |apis| && s in Exposed(e, apis[i], rds[i]) ensures ToolName(apis[i], rds[i][s]) != n {
          ExposedIsTool(e, apis, rds, reserved, tools, byAPI, i, s);
        }
      }
    }
    forall n | n in tools
      ensures n !in reserved && tools[n].name == n && exists i | 0 <= i < |apis| :: apis[i].name == tools[n].apiName
    {
      var i, s := ToolIsExposed(e, apis, rds, reserved, tools, byAPI, n);
    }
  }

  /** byAPI holds the number of exposed operations of each service, and these add up to the number of tools. */
  lemma CountsAddUp(e: Engine, apis: seq<Service>, rds: seq<Reading>, reserved: set<string>,
                    tools: map<string, ToolMeta>, byAPI: map<string, nat>)
    requires HasDistinctNames(apis)
    requires AreReadings(apis, rds) && CanLoad(e, apis, rds, reserved) && IsLoaded(e, apis, rds, tools, byAPI)
    ensures forall i | 0 <= i < |apis| :: apis[i].name in byAPI && byAPI[apis[i].name] == |Exposed(e, apis[i], rds[i])|
    ensures |tools| == Sum(seq(|apis|, i requires 0 <= i < |apis| => |Exposed(e, apis[i], rds[i])|))
  {
    var ms, names := Yields(e, apis, rds), ServiceNames(apis);
    FoldAdds(names, Sizes(ms), map[]);
    forall i | 0 <= i < |apis| ensures |ms[i]| == |Exposed(e, apis[i], rds[i])| {
      ServiceToolsSize(e, apis[i], rds[i], reserved);
    }
    forall i | 0 <= i < |apis| ensures apis[i].name in byAPI && byAPI[apis[i].name] == |Exposed(e, apis[i], rds[i])| {
      assert names[i] == apis[i].name && Sizes(ms)[i] == |ms[i]|;
    }
    MergeSize(ms);
    assert Sizes(ms) == seq(|apis|, i requires 0 <= i < |apis| => |Exposed(e, apis[i], rds[i])|);
  }

  lemma SomeKept(e: Engine, svc: Service, rd: Reading) returns (slots: seq<Slot>, kept: seq<Operation>)
    ensures AreKept(e, svc, rd, slots, kept)
  {
    slots := SomeOrder(Exposed(e, svc, rd));
    kept := seq(|slots|, i requires 0 <= i < |slots| => assert slots[i] in slots; rd[slots[i]]);
    assert forall i | 0 <= i < |slots| :: slots[i] in slots;
  }

  lemma ServiceToolsSize(e: Engine, svc: Service, rd: Reading, reserved: set<string>)
    requires IsServiceReading(svc, rd) && ServiceCanLoad(e, svc, rd, reserved)
    ensures |ServiceTools(e, svc, rd)| == |Exposed(e, svc, rd)|
  {
    var slots, kept := SomeKept(e, svc, rd);
    KeptNamesAreExposedNames(e, svc, svc.decoded.value, rd, slots, kept);
    KeptYieldTools(e, svc, svc.decoded.value, rd, slots, kept, map[]);
    KeptSize(e, svc, rd, slots, kept);
  }

  // ---------- Independence of the map order ----------

  /** No request body leaves its schema to the map order. */
  ghost predicate IsUnambiguousDoc(doc: Document)
  {
    forall s | HasSlot(doc, s) && RawAt(doc, s).body.Some? && RawAt(doc, s).body.value.ref == "" ::
      IsUnambiguous(RawAt(doc, s).body.value.content)
  }

  lemma OperationIsDetermined(api: string, doc: Document, s: Slot, a: Operation, b: Operation)
    requires HasSlot(doc, s) && IsUnambiguousDoc(doc)
    requires IsOperationOf(api, doc, s, a) && IsOperationOf(api, doc, s, b)
    ensures a == b
  {
    var raw := RawAt(doc, s);
    var pa :| CanPickFor(raw, pa) && a == OperationWith(api, doc, s, pa);
    var pb :| CanPickFor(raw, pb) && b == OperationWith(api, doc, s, pb);
    if raw.body.Some? && raw.body.value.ref == "" {
      PickIsStable(raw.body.value.content);
      assert pa == pb;
    }
  }

  lemma ReadingIsDetermined(svc: Service, a: Reading, b: Reading)
    requires IsServiceReading(svc, a) && IsServiceReading(svc, b)
    requires svc.decoded.Some? ==> IsUnambiguousDoc(svc.decoded.value)
    ensures a == b
  {
    if LoadDoc(svc.decoded).Ok? {
      forall s | s in a ensures a[s] == b[s] {
        OperationIsDetermined(svc.name, svc.decoded.value, s, a[s], b[s]);
      }
    }
  }

  /**
   * The order in which maps are iterated does not matter: two loads of the same unambiguous documents
   * both fail or both succeed, and then with the same tools and counts.
   */
  lemma LoadIgnoresMapOrder(e: Engine, apis: seq<Service>, reserved: set<string>,
                            a: seq<Reading>, toolsA: map<string, ToolMeta>, countsA: map<string, nat>,
                            b: seq<Reading>, toolsB: map<string, ToolMeta>, countsB: map<string, nat>)
    requires AreReadings(apis, a) && AreReadings(apis, b)
    requires forall i | 0 <= i < |apis| && apis[i].decoded.Some? :: IsUnambiguousDoc(apis[i].decoded.value)
    ensures CanLoad(e, apis, a, reserved) <==> CanLoad(e, apis, b, reserved)
    ensures IsLoaded(e, apis, a, toolsA, countsA) && IsLoaded(e, apis, b, toolsB, countsB) ==>
              toolsA == toolsB && countsA == countsB
  {
    forall i | 0 <= i < |apis| ensures a[i] == b[i] {
      ReadingIsDetermined(apis[i], a[i], b[i]);
    }
    assert a == b;
  }
}
