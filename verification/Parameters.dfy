/** Merging the parameters of a path item with those of one of its operations. */
module Parameters {
  import opened Text
  import opened Wrappers
  import opened Json

  datatype RawParameter = RawParameter(
    name: string, location: string, required: bool, description: string, schema: Option<Fields>, ref: string)

  /** Where an argument goes; `InBody` stands for an unexpanded request body. */
  datatype Location = InPath | InQuery | InHeader | InBody

  datatype Parameter = Parameter(
    name: string, location: Location, required: bool, description: string, schema: Fields)

  const DEFAULT_SCHEMA: Fields := map["type" := Str("string")]

  /** References, cookies and unknown locations are dropped. */
  function LocationOf(p: RawParameter): (l: Option<Location>)
    ensures l.Some? ==> !l.value.InBody?
  {
    var name := ToLower(p.location);
    if p.ref != "" then None
    else if name == "path" then Some(InPath)
    else if name == "query" then Some(InQuery)
    else if name == "header" then Some(InHeader)
    else None
  }

  predicate IsKept(p: RawParameter)
  {
    LocationOf(p).Some?
  }

  function LocationName(l: Location): string
  {
    match l
    case InPath => "path"
    case InQuery => "query"
    case InHeader => "header"
    case InBody => "body"
  }

  /** What identifies a parameter. As a text it is `location:name`, which identifies the pair (KeyTextIsExact). */
  datatype Key = Key(location: Location, name: string)

  function KeyText(k: Key): string
  {
    LocationName(k.location) + ":" + k.name
  }

  lemma KeyTextIsExact(j: Key, k: Key)
    ensures KeyText(j) == KeyText(k) <==> j == k
  {
    var lj, lk := LocationName(j.location), LocationName(k.location);
    assert KeyText(j)[0] == lj[0] && KeyText(k)[0] == lk[0];
    assert KeyText(j)[|lj| + 1..] == j.name && KeyText(k)[|lk| + 1..] == k.name;
  }

  function KeyOf(p: RawParameter): Key
  {
    Key(if IsKept(p) then LocationOf(p).value else InBody, p.name)
  }

  function Convert(p: RawParameter): Parameter
  {
    var location := KeyOf(p).location;
    Parameter(p.name, location, p.required || location == InPath, p.description,
              if p.schema.Some? then p.schema.value else DEFAULT_SCHEMA)
  }

  // ---------- Ordered override ----------

  /** The keys in order of first occurrence. */
  function MergedKeys(ps: seq<RawParameter>): (order: seq<Key>)
  {
    if ps == [] then []
    else
      var order, p := MergedKeys(ps[..|ps| - 1]), ps[|ps| - 1];
      if IsKept(p) && KeyOf(p) !in order then order + [KeyOf(p)] else order
  }

  /** The last kept parameter for each key. */
  function MergedByKey(ps: seq<RawParameter>): (byKey: map<Key, Parameter>)
    ensures forall k :: k in MergedKeys(ps) <==> k in byKey
  {
    if ps == [] then map[]
    else
      var byKey, p := MergedByKey(ps[..|ps| - 1]), ps[|ps| - 1];
      if IsKept(p) then byKey[KeyOf(p) := Convert(p)] else byKey
  }

  function Merged(ps: seq<RawParameter>): (out: seq<Parameter>)
    ensures |out| == |MergedKeys(ps)|
  {
    var order, byKey := MergedKeys(ps), MergedByKey(ps);
    seq(|order|, i requires 0 <= i < |order| => assert order[i] in order; byKey[order[i]])
  }

  /** Index `j` holds the first kept parameter with its key. */
  ghost predicate IsFirst(ps: seq<RawParameter>, j: nat)
  {
    j < |ps| && IsKept(ps[j]) && forall k | 0 <= k < j && IsKept(ps[k]) :: KeyOf(ps[k]) != KeyOf(ps[j])
  }

  /** Index `j` holds the last kept parameter with its key. */
  ghost predicate IsLast(ps: seq<RawParameter>, j: nat)
  {
    j < |ps| && IsKept(ps[j]) && forall k | j < k < |ps| && IsKept(ps[k]) :: KeyOf(ps[k]) != KeyOf(ps[j])
  }

  /** `out` has one entry for each first occurrence, in order, and its value is the last occurrence. */
  ghost predicate IsOverride(ps: seq<RawParameter>, firsts: seq<nat>, out: seq<Parameter>)
  {
    && |firsts| == |out|
    && (forall j :: j in firsts <==> IsFirst(ps, j))
    && (forall a, b | 0 <= a < b < |firsts| :: firsts[a] < firsts[b])
    && forall a | 0 <= a < |firsts| ::
         firsts[a] < |ps| &&
         exists l: nat :: IsLast(ps, l) && KeyOf(ps[l]) == KeyOf(ps[firsts[a]]) && out[a] == Convert(ps[l])
  }

  lemma {:induction false} MergedByKeyIsLast(ps: seq<RawParameter>, key: Key) returns (l: nat)
    requires key in MergedByKey(ps)
    ensures IsLast(ps, l) && KeyOf(ps[l]) == key && MergedByKey(ps)[key] == Convert(ps[l])
  {
    var n := |ps| - 1;
    var p := ps[n];
    if IsKept(p) && KeyOf(p) == key {
      l := n;
    } else {
      l := MergedByKeyIsLast(ps[..n], key);
    }
  }

  /** The indices MergedKeys takes its keys from. */
  function Firsts(ps: seq<RawParameter>): seq<nat>
  {
    if ps == [] then []
    else
      var n := |ps| - 1;
      if IsKept(ps[n]) && KeyOf(ps[n]) !in MergedKeys(ps[..n]) then Firsts(ps[..n]) + [n] else Firsts(ps[..n])
  }

  lemma {:induction false} FirstsTrackKeys(ps: seq<RawParameter>)
    ensures |Firsts(ps)| == |MergedKeys(ps)|
    ensures forall a | 0 <= a < |Firsts(ps)| :: Firsts(ps)[a] < |ps| && MergedKeys(ps)[a] == KeyOf(ps[Firsts(ps)[a]])
  {
    if ps != [] {
      FirstsTrackKeys(ps[..|ps| - 1]);
    }
  }

  lemma {:induction false} FirstsIncrease(ps: seq<RawParameter>)
    ensures forall a | 0 <= a < |Firsts(ps)| :: Firsts(ps)[a] < |ps|
    ensures forall a, b | 0 <= a < b < |Firsts(ps)| :: Firsts(ps)[a] < Firsts(ps)[b]
  {
    if ps != [] {
      FirstsIncrease(ps[..|ps| - 1]);
    }
  }

  lemma {:induction false} KeysAreKept(ps: seq<RawParameter>, key: Key)
    ensures key in MergedKeys(ps) <==> exists k | 0 <= k < |ps| :: IsKept(ps[k]) && KeyOf(ps[k]) == key
  {
    if ps != [] {
      var n := |ps| - 1;
      KeysAreKept(ps[..n], key);
      assert forall k | 0 <= k < n :: ps[k] == ps[..n][k];
    }
  }

  lemma {:induction false} FirstsAreFirst(ps: seq<RawParameter>, j: nat)
    ensures j in Firsts(ps) <==> IsFirst(ps, j)
  {
    if ps != [] {
      var n := |ps| - 1;
      FirstsAreFirst(ps[..n], j);
      assert forall k | 0 <= k < n :: ps[k] == ps[..n][k];
      if j == n {
        KeysAreKept(ps[..n], KeyOf(ps[n]));
      }
    }
  }

  /** The merge is the ordered override of the two lists, path level first (section 4.7.9 of OpenAPI 3.0.3). */
  lemma MergedIsOverride(ps: seq<RawParameter>)
    ensures exists firsts :: IsOverride(ps, firsts, Merged(ps))
  {
    var firsts := Firsts(ps);
    FirstsTrackKeys(ps);
    FirstsIncrease(ps);
    forall j ensures j in firsts <==> IsFirst(ps, j) {
      FirstsAreFirst(ps, j);
    }
    forall a | 0 <= a < |firsts|
      ensures exists l: nat :: IsLast(ps, l) && KeyOf(ps[l]) == KeyOf(ps[firsts[a]]) && Merged(ps)[a] == Convert(ps[l])
    {
      assert MergedKeys(ps)[a] in MergedKeys(ps);
      var l := MergedByKeyIsLast(ps, MergedKeys(ps)[a]);
    }
    assert IsOverride(ps, firsts, Merged(ps));
  }

  /** Location and name together occur once in a merge, and it keeps exactly the kept ones. */
  lemma MergedIsUnique(ps: seq<RawParameter>)
    ensures var out := Merged(ps);
            && (forall a, b | 0 <= a < b < |out| :: out[a].location != out[b].location || out[a].name != out[b].name)
            && (forall a | 0 <= a < |out| :: out[a].location != InBody)
            && (forall a | 0 <= a < |out| && out[a].location == InPath :: out[a].required)
            && (forall p | p in ps && IsKept(p) :: exists q :: q in out && Some(q.location) == LocationOf(p) && q.name == p.name)
  {
    var out := Merged(ps);
    MergedIsOverride(ps);
    var firsts :| IsOverride(ps, firsts, out);
    forall a | 0 <= a < |out|
      ensures exists l: nat :: IsLast(ps, l) && IsFirst(ps, firsts[a]) && KeyOf(ps[l]) == KeyOf(ps[firsts[a]])
                               && out[a] == Convert(ps[l])
    {
      assert firsts[a] in firsts;
    }
    forall a, b | 0 <= a < b < |out|
      ensures out[a].location != out[b].location || out[a].name != out[b].name
    {
      var la: nat :| IsLast(ps, la) && KeyOf(ps[la]) == KeyOf(ps[firsts[a]]) && out[a] == Convert(ps[la]);
      var lb: nat :| IsLast(ps, lb) && KeyOf(ps[lb]) == KeyOf(ps[firsts[b]]) && out[b] == Convert(ps[lb]);
      assert firsts[b] in firsts && IsFirst(ps, firsts[b]) && IsFirst(ps, firsts[a]);
    }
    forall p | p in ps && IsKept(p)
      ensures exists q :: q in out && Some(q.location) == LocationOf(p) && q.name == p.name
    {
      MergedHas(ps, p);
    }
  }

  lemma MergedHas(ps: seq<RawParameter>, p: RawParameter)
    requires p in ps && IsKept(p)
    ensures exists q :: q in Merged(ps) && Some(q.location) == LocationOf(p) && q.name == p.name
  {
    KeysAreKept(ps, KeyOf(p));
    var order := MergedKeys(ps);
    var a :| 0 <= a < |order| && order[a] == KeyOf(p);
    assert order[a] in order;
    var l := MergedByKeyIsLast(ps, order[a]);
    assert Merged(ps)[a] in Merged(ps);
  }

  /** An operation-level parameter replaces the path-level one of the same location and name. */
  lemma OperationOverridesPath(pathLevel: seq<RawParameter>, opLevel: seq<RawParameter>, q: Parameter, p: RawParameter)
    requires q in Merged(pathLevel + opLevel)
    requires p in opLevel && IsKept(p) && Some(q.location) == LocationOf(p) && q.name == p.name
    ensures exists r :: r in opLevel && IsKept(r) && q == Convert(r)
  {
    var ps := pathLevel + opLevel;
    var a :| 0 <= a < |Merged(ps)| && Merged(ps)[a] == q;
    assert MergedKeys(ps)[a] in MergedKeys(ps);
    var l := MergedByKeyIsLast(ps, MergedKeys(ps)[a]);
    var i :| 0 <= i < |opLevel| && opLevel[i] == p;
    assert ps[|pathLevel| + i] == p;
    assert l >= |pathLevel| + i;
    assert ps[l] == opLevel[l - |pathLevel|];
  }

  // ---------- What a merged list holds ----------

  /** The entry is no reference and names this location, in any case. */
  predicate IsAt(p: RawParameter, l: Location)
  {
    && p.ref == ""
    && match l
       case InPath => ToLower(p.location) == "path"
       case InQuery => ToLower(p.location) == "query"
       case InHeader => ToLower(p.location) == "header"
       case InBody => false
  }

  /** The parameter says what the entry says; in the path it is required anyway, and a schema is always there. */
  predicate IsFrom(q: Parameter, p: RawParameter)
  {
    && IsAt(p, q.location) && q.name == p.name && q.description == p.description
    && (q.required <==> p.required || q.location == InPath)
    && q.schema == (if p.schema.Some? then p.schema.value else map["type" := Str("string")])
  }

  /** The list declares a parameter of this location and name. */
  ghost predicate Declares(ps: seq<RawParameter>, l: Location, name: string)
  {
    exists p :: p in ps && IsAt(p, l) && p.name == name
  }

  /** The parameter is the last one the list declares for its location and name. */
  ghost predicate IsLastDeclared(ps: seq<RawParameter>, q: Parameter)
  {
    exists i | 0 <= i < |ps| :: IsFrom(q, ps[i]) && forall j | i < j < |ps| :: !(IsAt(ps[j], q.location) && ps[j].name == q.name)
  }

  lemma LocationMeans(p: RawParameter, l: Location)
    ensures LocationOf(p) == Some(l) <==> IsAt(p, l)
  {
  }

  lemma KeyMeans(p: RawParameter, l: Location, name: string)
    ensures IsKept(p) && KeyOf(p) == Key(l, name) <==> IsAt(p, l) && p.name == name
  {
    LocationMeans(p, l);
  }

  lemma ConvertMeans(p: RawParameter, q: Parameter)
    requires IsKept(p)
    ensures q == Convert(p) <==> IsFrom(q, p)
  {
    LocationMeans(p, KeyOf(p).location);
    LocationMeans(p, q.location);
  }

  /** The members of a merge are the last entries for their keys. */
  lemma MergedMembers(ps: seq<RawParameter>, q: Parameter)
    ensures q in Merged(ps) <==> exists l: nat :: IsLast(ps, l) && q == Convert(ps[l])
  {
    var order := MergedKeys(ps);
    if q in Merged(ps) {
      var a :| 0 <= a < |Merged(ps)| && Merged(ps)[a] == q;
      assert order[a] in order;
      var l := MergedByKeyIsLast(ps, order[a]);
    }
    if l: nat :| IsLast(ps, l) && q == Convert(ps[l]) {
      KeysAreKept(ps, KeyOf(ps[l]));
      var a :| 0 <= a < |order| && order[a] == KeyOf(ps[l]);
      assert order[a] in order;
      var l' := MergedByKeyIsLast(ps, order[a]);
      assert l' == l;
      assert Merged(ps)[a] == q;
    }
  }

  lemma LastMeans(ps: seq<RawParameter>, q: Parameter)
    ensures (exists l: nat :: IsLast(ps, l) && q == Convert(ps[l])) <==> IsLastDeclared(ps, q)
  {
    if l: nat :| IsLast(ps, l) && q == Convert(ps[l]) {
      ConvertMeans(ps[l], q);
      forall j | l < j < |ps| ensures !(IsAt(ps[j], q.location) && ps[j].name == q.name) {
        KeyMeans(ps[j], q.location, q.name);
        KeyMeans(ps[l], q.location, q.name);
      }
    }
    if i :| 0 <= i < |ps| && IsFrom(q, ps[i])
            && forall j | i < j < |ps| :: !(IsAt(ps[j], q.location) && ps[j].name == q.name) {
      LocationMeans(ps[i], q.location);
      ConvertMeans(ps[i], q);
      KeyMeans(ps[i], q.location, q.name);
      forall k | i < k < |ps| && IsKept(ps[k]) ensures KeyOf(ps[k]) != KeyOf(ps[i]) {
        KeyMeans(ps[k], q.location, q.name);
      }
      assert IsLast(ps, i);
    }
  }

  /** A list after another: its own last declarations, and those of the other that it does not redeclare. */
  lemma LastOfTwo(first: seq<RawParameter>, second: seq<RawParameter>, q: Parameter)
    ensures IsLastDeclared(first + second, q) <==>
              IsLastDeclared(second, q) || (IsLastDeclared(first, q) && !Declares(second, q.location, q.name))
  {
    var ps, n := first + second, |first|;
    if i :| 0 <= i < |ps| && IsFrom(q, ps[i])
            && forall j | i < j < |ps| :: !(IsAt(ps[j], q.location) && ps[j].name == q.name) {
      if i >= n {
        assert second[i - n] == ps[i];
        forall j | i - n < j < |second| ensures !(IsAt(second[j], q.location) && second[j].name == q.name) {
          assert ps[n + j] == second[j];
        }
        assert IsLastDeclared(second, q);
      } else {
        forall j | 0 <= j < |second| ensures !(IsAt(second[j], q.location) && second[j].name == q.name) {
          assert ps[n + j] == second[j];
        }
        assert first[i] == ps[i] && forall j | i < j < n :: first[j] == ps[j];
      }
    }
    if i :| 0 <= i < |second| && IsFrom(q, second[i])
            && forall j | i < j < |second| :: !(IsAt(second[j], q.location) && second[j].name == q.name) {
      assert ps[n + i] == second[i];
      forall j | n + i < j < |ps| ensures !(IsAt(ps[j], q.location) && ps[j].name == q.name) {
        assert ps[j] == second[j - n];
      }
    } else if i :| 0 <= i < n && IsFrom(q, first[i])
                   && forall j | i < j < n :: !(IsAt(first[j], q.location) && first[j].name == q.name) {
      if !Declares(second, q.location, q.name) {
        assert ps[i] == first[i];
        forall j | i < j < |ps| ensures !(IsAt(ps[j], q.location) && ps[j].name == q.name) {
          if j < n {
            assert ps[j] == first[j];
          } else {
            assert ps[j] == second[j - n] && second[j - n] in second;
          }
        }
      }
    }
  }

  /**
   * The merge holds exactly the last declarations of the operation level, and those of the path level whose
   * location and name the operation level does not declare.
   */
  lemma MergedMeans(pathLevel: seq<RawParameter>, opLevel: seq<RawParameter>, q: Parameter)
    ensures q in Merged(pathLevel + opLevel) <==>
              IsLastDeclared(opLevel, q) || (IsLastDeclared(pathLevel, q) && !Declares(opLevel, q.location, q.name))
  {
    MergedMembers(pathLevel + opLevel, q);
    LastMeans(pathLevel + opLevel, q);
    LastOfTwo(pathLevel, opLevel, q);
  }

  // ---------- The loops ----------

  /** The body of both loops: an entry joins `order` once and `byKey` always. */
  method Add(byKey: map<Key, Parameter>, order: seq<Key>, p: RawParameter, ghost seen: seq<RawParameter>)
    returns (byKey': map<Key, Parameter>, order': seq<Key>)
    requires byKey == MergedByKey(seen) && order == MergedKeys(seen)
    ensures byKey' == MergedByKey(seen + [p]) && order' == MergedKeys(seen + [p])
  {
    assert (seen + [p])[..|seen|] == seen;
    byKey', order' := byKey, order;
    if p.ref != "" {
      return;
    }
    var location := ToLower(p.location);
    if location == "cookie" {
      return;
    }
    if location != "path" && location != "query" && location != "header" {
      return;
    }
    var schema := if p.schema.Some? then p.schema.value else DEFAULT_SCHEMA;
    var loc := if location == "path" then InPath else if location == "query" then InQuery else InHeader;
    var key := Key(loc, p.name);
    if key !in byKey {
      order' := order + [key];
    }
    byKey' := byKey[key := Parameter(p.name, loc, p.required || location == "path", p.description, schema)];
  }

  lemma OneMore(before: seq<RawParameter>, ps: seq<RawParameter>, i: nat)
    requires i < |ps|
    ensures before + ps[..i] + [ps[i]] == before + ps[..i + 1]
    ensures ps[..i] + [ps[i]] == ps[..i + 1]
  {
  }

  method MergeParameters(pathLevel: seq<RawParameter>, opLevel: seq<RawParameter>) returns (out: seq<Parameter>)
    ensures out == Merged(pathLevel + opLevel)
    ensures exists firsts :: IsOverride(pathLevel + opLevel, firsts, out)
  {
    var byKey, order := map[], [];
    for i := 0 to |pathLevel|
      invariant byKey == MergedByKey(pathLevel[..i]) && order == MergedKeys(pathLevel[..i])
    {
      byKey, order := Add(byKey, order, pathLevel[i], pathLevel[..i]);
      OneMore([], pathLevel, i);
    }
    assert pathLevel[..|pathLevel|] == pathLevel && pathLevel + opLevel[..0] == pathLevel;
    for i := 0 to |opLevel|
      invariant byKey == MergedByKey(pathLevel + opLevel[..i]) && order == MergedKeys(pathLevel + opLevel[..i])
    {
      byKey, order := Add(byKey, order, opLevel[i], pathLevel + opLevel[..i]);
      OneMore(pathLevel, opLevel, i);
    }
    assert opLevel[..|opLevel|] == opLevel;
    out := [];
    for i := 0 to |order|
      invariant |out| == i && forall k | 0 <= k < i :: out[k] == byKey[order[k]]
    {
      assert order[i] in order;
      out := out + [byKey[order[i]]];
    }
    assert out == Merged(pathLevel + opLevel);
    MergedIsOverride(pathLevel + opLevel);
  }
}
