/** Discovery rules: which operations of an OpenAPI document become tools. */
module Discovery {
  import opened Text
  import opened Wrappers
  import Glob
  import PathTemplate

  /**
   * The regular expressions users write: which ones compile, and which texts each matches. They are
   * not interpreted here; every result holds for any engine.
   */
  datatype Engine = Engine(compiles: string -> bool, matches: (string, string) -> bool)

  /** What a rule can look at. */
  datatype Candidate = Candidate(operationID: string, method_: string, path: string, tags: seq<string>)

  datatype Rule = Rule(operationIDs: seq<string>, methods: seq<string>, paths: seq<string>, tags: seq<string>)

  datatype APIDiscovery = APIDiscovery(included: seq<Rule>, excluded: seq<Rule>)

  // ---------- The formula ----------

  predicate IsRegexPattern(pattern: string)
  {
    HasPrefix(pattern, "^")
  }

  predicate IsGlobPattern(pattern: string)
  {
    !IsRegexPattern(pattern) && ('*' in pattern || '?' in pattern)
  }

  ghost predicate PathMatches(e: Engine, pattern: string, path: string)
  {
    if IsRegexPattern(pattern) then e.matches(pattern, path)
    else if IsGlobPattern(pattern) then Glob.GlobMatches(pattern, path)
    else PathTemplate.MatchTemplateOrExact(pattern, path)
  }

  /** A rule: fields are ANDed, the values within a field ORed, an absent field is no constraint. */
  ghost predicate RuleMatches(e: Engine, r: Rule, c: Candidate)
  {
    && (r.operationIDs == [] || exists p | p in r.operationIDs :: e.matches(p, c.operationID))
    && (r.methods == [] || exists m | m in r.methods :: ToUpper(m) == ToUpper(c.method_))
    && (r.paths == [] || exists p | p in r.paths :: PathMatches(e, p, c.path))
    && (r.tags == [] || exists t | t in r.tags :: t in c.tags)
  }

  ghost predicate Included(e: Engine, d: APIDiscovery, c: Candidate)
  {
    d.included == [] || exists r | r in d.included :: RuleMatches(e, r, c)
  }

  ghost predicate Excluded(e: Engine, d: APIDiscovery, c: Candidate)
  {
    exists r | r in d.excluded :: RuleMatches(e, r, c)
  }

  ghost predicate Exposes(e: Engine, d: APIDiscovery, c: Candidate)
  {
    Included(e, d, c) && !Excluded(e, d, c)
  }

  predicate RuleCompiles(e: Engine, r: Rule)
  {
    && (forall p | p in r.operationIDs :: e.compiles(p))
    && forall p | p in r.paths && IsRegexPattern(p) :: e.compiles(p)
  }

  predicate Compiles(e: Engine, d: APIDiscovery)
  {
    (forall r | r in d.included :: RuleCompiles(e, r)) && forall r | r in d.excluded :: RuleCompiles(e, r)
  }

  // ---------- The matchers ----------

  datatype Matcher =
    | Always
    | Never
    | OperationIDMatcher(res: seq<string>)
    | MethodMatcher(methods: set<string>)
    | PathMatcher(patterns: seq<string>)
    | TagMatcher(tags: set<string>)
    | RuleMatcher(matchers: seq<Matcher>)
    | OrMatcher(children: seq<Matcher>, empty: Matcher)
    | DiscoveryMatcher(included: Matcher, excluded: Matcher)

  /** matchPath; the error is a pattern that does not compile. */
  method MatchPath(e: Engine, pattern: string, path: string) returns (r: Result<bool>)
    ensures r.Err? <==> IsRegexPattern(pattern) && !e.compiles(pattern)
    ensures r.Ok? ==> (r.value <==> PathMatches(e, pattern, path))
  {
    if HasPrefix(pattern, "^") {
      if !e.compiles(pattern) {
        return Err;
      }
      return Ok(e.matches(pattern, path));
    }
    if '*' in pattern || '?' in pattern {
      var ok := Glob.MatchGlob(pattern, path);
      return Ok(ok);
    }
    return Ok(PathTemplate.MatchTemplateOrExact(pattern, path));
  }

  /** A pattern that does not compile is passed over by the path matcher. */
  ghost predicate PatternHits(e: Engine, pattern: string, path: string)
  {
    (IsRegexPattern(pattern) ==> e.compiles(pattern)) && PathMatches(e, pattern, path)
  }

  /** What each matcher answers. */
  ghost predicate Matches(e: Engine, m: Matcher, c: Candidate)
  {
    match m
    case Always => true
    case Never => false
    case OperationIDMatcher(res) => exists p | p in res :: e.matches(p, c.operationID)
    case MethodMatcher(methods) => ToUpper(c.method_) in methods
    case PathMatcher(patterns) => exists p | p in patterns :: PatternHits(e, p, c.path)
    case TagMatcher(tags) => exists t | t in c.tags :: t in tags
    case RuleMatcher(matchers) => forall sub | sub in matchers :: Matches(e, sub, c)
    case OrMatcher(children, empty) =>
      if children == [] then Matches(e, empty, c) else exists i | 0 <= i < |children| :: Matches(e, children[i], c)
    case DiscoveryMatcher(included, excluded) => Matches(e, included, c) && !Matches(e, excluded, c)
  }

  /** Every pattern in the matcher compiles. */
  ghost predicate IsCompiled(e: Engine, m: Matcher)
  {
    match m
    case OperationIDMatcher(res) => forall p | p in res :: e.compiles(p)
    case PathMatcher(patterns) => forall p | p in patterns && IsRegexPattern(p) :: e.compiles(p)
    case RuleMatcher(matchers) => forall i | 0 <= i < |matchers| :: IsCompiled(e, matchers[i])
    case OrMatcher(children, empty) => IsCompiled(e, empty) && forall i | 0 <= i < |children| :: IsCompiled(e, children[i])
    case DiscoveryMatcher(included, excluded) => IsCompiled(e, included) && IsCompiled(e, excluded)
    case _ => true
  }

  /** One of the path matchers in the matcher holds the pattern. */
  ghost predicate HoldsPattern(m: Matcher, p: string)
  {
    match m
    case PathMatcher(patterns) => p in patterns
    case RuleMatcher(matchers) => exists i | 0 <= i < |matchers| :: HoldsPattern(matchers[i], p)
    case OrMatcher(children, empty) => HoldsPattern(empty, p) || exists i | 0 <= i < |children| :: HoldsPattern(children[i], p)
    case DiscoveryMatcher(included, excluded) => HoldsPattern(included, p) || HoldsPattern(excluded, p)
    case _ => false
  }

  /** matchPath has an error for the pattern, whatever the path. */
  predicate FailsToCompile(e: Engine, pattern: string)
  {
    IsRegexPattern(pattern) && !e.compiles(pattern)
  }

  /** The loop of the path matcher: the first pattern that hits settles it, one that fails is passed over. */
  method MatchAnyPath(e: Engine, patterns: seq<string>, path: string) returns (ok: bool, ghost failed: bool)
    ensures ok <==> exists p | p in patterns :: PatternHits(e, p, path)
    ensures failed ==> exists p | p in patterns :: FailsToCompile(e, p)
    ensures !ok && !failed ==> forall p | p in patterns :: !FailsToCompile(e, p)
  {
    failed := false;
    for i := 0 to |patterns|
      invariant forall k | 0 <= k < i :: !PatternHits(e, patterns[k], path)
      invariant failed ==> exists p | p in patterns :: FailsToCompile(e, p)
      invariant !failed ==> forall k | 0 <= k < i :: !FailsToCompile(e, patterns[k])
    {
      var r := MatchPath(e, patterns[i], path);
      assert patterns[i] in patterns;
      failed := failed || r.Err?;
      if r.Ok? && r.value {
        assert PatternHits(e, patterns[i], path);
        return true, failed;
      }
    }
    return false, failed;
  }

  /**
   * The Match methods: loops that return at the first child that settles the answer. `failed` tells whether a path
   * pattern failed to compile on the way and was passed over; in a compiled matcher none does.
   */
  method Match(e: Engine, m: Matcher, c: Candidate) returns (ok: bool, ghost failed: bool)
    ensures ok <==> Matches(e, m, c)
    ensures IsCompiled(e, m) ==> !failed
    decreases m
  {
    failed := false;
    match m {
      case Always => return true, failed;
      case Never => return false, failed;
      case OperationIDMatcher(res) =>
        for i := 0 to |res|
          invariant forall k | 0 <= k < i :: !e.matches(res[k], c.operationID)
        {
          if e.matches(res[i], c.operationID) {
            return true, failed;
          }
        }
        return false, failed;
      case MethodMatcher(methods) => return ToUpper(c.method_) in methods, false;
      case PathMatcher(patterns) =>
        ok, failed := MatchAnyPath(e, patterns, c.path);
      case TagMatcher(tags) =>
        for i := 0 to |c.tags|
          invariant forall k | 0 <= k < i :: c.tags[k] !in tags
        {
          if c.tags[i] in tags {
            return true, failed;
          }
        }
        return false, failed;
      case RuleMatcher(matchers) =>
        for i := 0 to |matchers|
          invariant forall k | 0 <= k < i :: Matches(e, matchers[k], c)
          invariant IsCompiled(e, m) ==> !failed
        {
          ghost var f;
          ok, f := Match(e, matchers[i], c);
          failed := failed || f;
          if !ok {
            return;
          }
        }
        return true, failed;
      case OrMatcher(children, empty) =>
        if |children| == 0 {
          ok, failed := Match(e, empty, c);
          return;
        }
        for i := 0 to |children|
          invariant forall k | 0 <= k < i :: !Matches(e, children[k], c)
          invariant IsCompiled(e, m) ==> !failed
        {
          ghost var f;
          ok, f := Match(e, children[i], c);
          failed := failed || f;
          if ok {
            return;
          }
        }
        return false, failed;
      case DiscoveryMatcher(included, excluded) =>
        ok, failed := Match(e, included, c);
        if !ok {
          return;
        }
        var out;
        ghost var f;
        out, f := Match(e, excluded, c);
        return !out, failed || f;
    }
  }

  method NewMethodMatcher(methods: seq<string>) returns (m: Matcher)
    ensures m.MethodMatcher? && m.methods == set x | x in methods :: ToUpper(x)
  {
    var upper := {};
    for i := 0 to |methods|
      invariant upper == set x | x in methods[..i] :: ToUpper(x)
    {
      upper := upper + {ToUpper(methods[i])};
      assert methods[..i + 1] == methods[..i] + [methods[i]];
    }
    assert methods[..|methods|] == methods;
    return MethodMatcher(upper);
  }

  method NewTagMatcher(tags: seq<string>) returns (m: Matcher)
    ensures m.TagMatcher? && m.tags == set t | t in tags
  {
    var all := {};
    for i := 0 to |tags|
      invariant all == set t | t in tags[..i]
    {
      all := all + {tags[i]};
    }
    assert tags[..|tags|] == tags;
    return TagMatcher(all);
  }

  method NewOperationIDMatcher(e: Engine, patterns: seq<string>) returns (r: Result<Matcher>)
    ensures r.Ok? <==> forall p | p in patterns :: e.compiles(p)
    ensures r.Ok? ==> r.value == OperationIDMatcher(patterns)
  {
    var res := [];
    for i := 0 to |patterns|
      invariant res == patterns[..i]
      invariant forall k | 0 <= k < i :: e.compiles(patterns[k])
    {
      if !e.compiles(patterns[i]) {
        return Err;
      }
      res := res + [patterns[i]];
    }
    return Ok(OperationIDMatcher(res));
  }

  method ValidatePathPatterns(e: Engine, patterns: seq<string>) returns (ok: bool)
    ensures ok <==> forall p | p in patterns && IsRegexPattern(p) :: e.compiles(p)
  {
    for i := 0 to |patterns|
      invariant forall k | 0 <= k < i && IsRegexPattern(patterns[k]) :: e.compiles(patterns[k])
    {
      if HasPrefix(patterns[i], "^") && !e.compiles(patterns[i]) {
        return false;
      }
    }
    return true;
  }

  /** The sub-matchers NewRuleMatcher appends, field by field. */
  function RuleParts(r: Rule): seq<Matcher>
  {
    (if r.operationIDs == [] then [] else [OperationIDMatcher(r.operationIDs)])
    + (if r.methods == [] then [] else [MethodMatcher(set x | x in r.methods :: ToUpper(x))])
    + (if r.paths == [] then [] else [PathMatcher(r.paths)])
    + (if r.tags == [] then [] else [TagMatcher(set t | t in r.tags)])
  }

  lemma RulePartsMeanRule(e: Engine, r: Rule, c: Candidate)
    requires RuleCompiles(e, r)
    ensures (forall sub | sub in RuleParts(r) :: Matches(e, sub, c)) <==> RuleMatches(e, r, c)
  {
    RulePartsMembers(r);
    var ids, methods := OperationIDMatcher(r.operationIDs), MethodMatcher(set x | x in r.methods :: ToUpper(x));
    var paths, tags := PathMatcher(r.paths), TagMatcher(set t | t in r.tags);
    assert Matches(e, ids, c) <==> exists p | p in r.operationIDs :: e.matches(p, c.operationID);
    assert Matches(e, methods, c) <==> exists m | m in r.methods :: ToUpper(m) == ToUpper(c.method_);
    assert Matches(e, paths, c) <==> exists p | p in r.paths :: PathMatches(e, p, c.path);
    assert Matches(e, tags, c) <==> exists t | t in r.tags :: t in c.tags;
  }

  lemma RulePartsCompile(e: Engine, r: Rule)
    requires RuleCompiles(e, r)
    ensures IsCompiled(e, RuleMatcher(RuleParts(r)))
  {
    RulePartsMembers(r);
    forall i | 0 <= i < |RuleParts(r)| ensures IsCompiled(e, RuleParts(r)[i]) {
      assert RuleParts(r)[i] in RuleParts(r);
    }
  }

  lemma RulePartsMembers(r: Rule)
    ensures forall sub :: sub in RuleParts(r) <==>
              || (r.operationIDs != [] && sub == OperationIDMatcher(r.operationIDs))
              || (r.methods != [] && sub == MethodMatcher(set x | x in r.methods :: ToUpper(x)))
              || (r.paths != [] && sub == PathMatcher(r.paths))
              || (r.tags != [] && sub == TagMatcher(set t | t in r.tags))
  {
  }

  /** A built rule matcher answers as the rule says, and it is built exactly when its patterns compile. */
  method NewRuleMatcher(e: Engine, r: Rule) returns (m: Result<Matcher>)
    ensures m.Ok? <==> RuleCompiles(e, r)
    ensures m.Ok? ==> IsCompiled(e, m.value)
    ensures m.Ok? ==> forall c :: Matches(e, m.value, c) <==> RuleMatches(e, r, c)
  {
    var ms := [];
    if |r.operationIDs| > 0 {
      var ids := NewOperationIDMatcher(e, r.operationIDs);
      if ids.Err? {
        return Err;
      }
      ms := ms + [ids.value];
    }
    if |r.methods| > 0 {
      var methods := NewMethodMatcher(r.methods);
      ms := ms + [methods];
    }
    if |r.paths| > 0 {
      var ok := ValidatePathPatterns(e, r.paths);
      if !ok {
        return Err;
      }
      ms := ms + [PathMatcher(r.paths)];
    }
    if |r.tags| > 0 {
      var tags := NewTagMatcher(r.tags);
      ms := ms + [tags];
    }
    assert ms == RuleParts(r);
    RulePartsCompile(e, r);
    forall c ensures (forall sub | sub in ms :: Matches(e, sub, c)) <==> RuleMatches(e, r, c) {
      RulePartsMeanRule(e, r, c);
    }
    if |ms| == 0 {
      var always := RuleMatcher([Always]);
      assert forall c :: Matches(e, Always, c) && Matches(e, always, c);
      return Ok(always);
    }
    return Ok(RuleMatcher(ms));
  }

  /** One matcher for each rule, in order; fails at the first rule that does not compile. */
  method NewRuleMatchers(e: Engine, rules: seq<Rule>) returns (r: Result<seq<Matcher>>)
    ensures r.Ok? <==> forall rule | rule in rules :: RuleCompiles(e, rule)
    ensures r.Ok? ==> |r.value| == |rules|
    ensures r.Ok? ==> forall i | 0 <= i < |rules| :: IsCompiled(e, r.value[i])
    ensures r.Ok? ==> forall i, c | 0 <= i < |rules| :: Matches(e, r.value[i], c) <==> RuleMatches(e, rules[i], c)
  {
    var children := [];
    for i := 0 to |rules|
      invariant |children| == i
      invariant forall k | 0 <= k < i :: RuleCompiles(e, rules[k])
      invariant forall k | 0 <= k < i :: IsCompiled(e, children[k])
      invariant forall k, c | 0 <= k < i :: Matches(e, children[k], c) <==> RuleMatches(e, rules[k], c)
    {
      var m := NewRuleMatcher(e, rules[i]);
      if m.Err? {
        return Err;
      }
      children := children + [m.value];
    }
    return Ok(children);
  }

  /** The nested matchers compute exactly OR-of-AND-of-OR include AND NOT exclude. */
  method NewDiscoveryMatcher(e: Engine, d: APIDiscovery) returns (r: Result<Matcher>)
    ensures r.Ok? <==> Compiles(e, d)
    ensures r.Ok? ==> IsCompiled(e, r.value)
    ensures r.Ok? ==> forall c :: Matches(e, r.value, c) <==> Exposes(e, d, c)
  {
    var inc := NewRuleMatchers(e, d.included);
    if inc.Err? {
      return Err;
    }
    var exc := NewRuleMatchers(e, d.excluded);
    if exc.Err? {
      return Err;
    }
    var included, excluded := OrMatcher(inc.value, Always), OrMatcher(exc.value, Never);
    forall c
      ensures Matches(e, included, c) <==> Included(e, d, c)
      ensures Matches(e, excluded, c) <==> Excluded(e, d, c)
    {
      OrMatcherMeans(e, d.included, inc.value, Always, c);
      OrMatcherMeans(e, d.excluded, exc.value, Never, c);
    }
    return Ok(DiscoveryMatcher(included, excluded));
  }

  lemma OrMatcherMeans(e: Engine, rules: seq<Rule>, children: seq<Matcher>, empty: Matcher, c: Candidate)
    requires |children| == |rules|
    requires forall i | 0 <= i < |rules| :: Matches(e, children[i], c) <==> RuleMatches(e, rules[i], c)
    ensures Matches(e, OrMatcher(children, empty), c)
       <==> if rules == [] then Matches(e, empty, c) else exists r | r in rules :: RuleMatches(e, r, c)
  {
    if r :| r in rules && RuleMatches(e, r, c) {
      var i :| 0 <= i < |rules| && rules[i] == r;
      assert Matches(e, children[i], c);
    }
    if i :| 0 <= i < |children| && Matches(e, children[i], c) {
      assert rules[i] in rules;
    }
  }

  // ---------- What a rule means ----------

  /** The fields of a rule are joined by AND; a rule without fields matches everything. */
  lemma FieldsAreJoined(e: Engine, r: Rule, c: Candidate)
    ensures RuleMatches(e, r, c) <==>
              && RuleMatches(e, Rule(r.operationIDs, [], [], []), c)
              && RuleMatches(e, Rule([], r.methods, [], []), c)
              && RuleMatches(e, Rule([], [], r.paths, []), c)
              && RuleMatches(e, Rule([], [], [], r.tags), c)
    ensures RuleMatches(e, Rule([], [], [], []), c)
  {
  }

  /** The values of a field are joined by OR. */
  lemma ValuesAreAlternatives(e: Engine, xs: seq<string>, ys: seq<string>, c: Candidate)
    requires xs != [] && ys != []
    ensures RuleMatches(e, Rule(xs + ys, [], [], []), c)
       <==> RuleMatches(e, Rule(xs, [], [], []), c) || RuleMatches(e, Rule(ys, [], [], []), c)
    ensures RuleMatches(e, Rule([], xs + ys, [], []), c)
       <==> RuleMatches(e, Rule([], xs, [], []), c) || RuleMatches(e, Rule([], ys, [], []), c)
    ensures RuleMatches(e, Rule([], [], xs + ys, []), c)
       <==> RuleMatches(e, Rule([], [], xs, []), c) || RuleMatches(e, Rule([], [], ys, []), c)
    ensures RuleMatches(e, Rule([], [], [], xs + ys), c)
       <==> RuleMatches(e, Rule([], [], [], xs), c) || RuleMatches(e, Rule([], [], [], ys), c)
  {
    assert forall x :: x in xs + ys <==> x in xs || x in ys;
  }

  /** What one value of each field asks for: methods in any case, tags exactly, paths by the kind of pattern. */
  lemma OneValueMeans(e: Engine, x: string, c: Candidate)
    ensures RuleMatches(e, Rule([x], [], [], []), c) <==> e.matches(x, c.operationID)
    ensures RuleMatches(e, Rule([], [x], [], []), c) <==> ToLower(x) == ToLower(c.method_)
    ensures RuleMatches(e, Rule([], [], [], [x]), c) <==> x in c.tags
    ensures RuleMatches(e, Rule([], [], [x], []), c) <==>
              if x != "" && x[0] == '^' then e.matches(x, c.path)
              else if '*' in x || '?' in x then Glob.GlobMatches(x, c.path)
              else PathTemplate.MatchTemplateOrExact(x, c.path)
  {
    var r := [x];
    assert r[0] == x && forall y :: y in r <==> y == x;
    SameCase(x, c.method_);
  }

  /** Texts are the same in lower case exactly when they are the same in upper case. */
  lemma SameCase(a: string, b: string)
    ensures ToLower(a) == ToLower(b) <==> ToUpper(a) == ToUpper(b)
  {
    if ToLower(a) == ToLower(b) {
      forall i | 0 <= i < |a| ensures UpperChar(a[i]) == UpperChar(b[i]) {
        assert ToLower(a)[i] == ToLower(b)[i];
      }
    }
    if ToUpper(a) == ToUpper(b) {
      assert |a| == |ToUpper(a)| == |b|;
      forall i | 0 <= i < |a| ensures LowerChar(a[i]) == LowerChar(b[i]) {
        assert ToUpper(a)[i] == ToUpper(b)[i];
      }
    }
  }

  // ---------- Consequences ----------

  /**
   * Changing one list: another exclude rule never exposes more, another include rule never exposes less
   * when there is one already, and the first include rule never exposes more.
   */
  lemma AddingRules(e: Engine, d: APIDiscovery, r: Rule, c: Candidate)
    ensures Exposes(e, d.(excluded := d.excluded + [r]), c) ==> Exposes(e, d, c)
    ensures Exposes(e, d.(excluded := d.excluded + [r]), c) <==> Exposes(e, d, c) && !RuleMatches(e, r, c)
    ensures d.included != [] ==>
              (Exposes(e, d.(included := d.included + [r]), c)
          <==> Exposes(e, d, c) || (RuleMatches(e, r, c) && !Excluded(e, d, c)))
    ensures d.included == [] ==>
              (Exposes(e, d.(included := d.included + [r]), c) <==> Exposes(e, d, c) && RuleMatches(e, r, c))
  {
    assert forall x :: x in d.excluded + [r] <==> x in d.excluded || x == r;
    assert forall x :: x in d.included + [r] <==> x in d.included || x == r;
  }

  /** A compiled matcher holds no path pattern that could still fail to compile while matching. */
  lemma {:induction false} NoPatternFailsLate(e: Engine, m: Matcher, p: string)
    requires IsCompiled(e, m) && HoldsPattern(m, p)
    ensures !FailsToCompile(e, p)
    decreases m
  {
    match m {
      case RuleMatcher(matchers) =>
        var i :| 0 <= i < |matchers| && HoldsPattern(matchers[i], p);
        NoPatternFailsLate(e, matchers[i], p);
      case OrMatcher(children, empty) =>
        if HoldsPattern(empty, p) {
          NoPatternFailsLate(e, empty, p);
        } else {
          var i :| 0 <= i < |children| && HoldsPattern(children[i], p);
          NoPatternFailsLate(e, children[i], p);
        }
      case DiscoveryMatcher(included, excluded) =>
        NoPatternFailsLate(e, if HoldsPattern(included, p) then included else excluded, p);
      case _ =>
    }
  }
}
