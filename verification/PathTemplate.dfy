/** URL path templates: comparing them segment by segment, and filling their `{name}` segments. */
module PathTemplate {
  import opened Text

  const SLASH: char := '/'

  predicate IsSlash(c: char)
  {
    c == SLASH
  }

  /** splitPath: the segments between the slashes, ignoring slashes at both ends. */
  function SplitPath(p: string): seq<string>
  {
    var trimmed := Trim(p, IsSlash);
    if trimmed == "" then [] else Split(trimmed, SLASH)
  }

  predicate IsTemplateSeg(seg: string)
  {
    |seg| > 2 && seg[0] == '{' && seg[|seg| - 1] == '}'
  }

  function SegName(seg: string): string
    requires IsTemplateSeg(seg)
  {
    seg[1..|seg| - 1]
  }

  predicate SegMatches(a: string, b: string)
  {
    IsTemplateSeg(a) || IsTemplateSeg(b) || a == b
  }

  /** matchTemplateOrExact: a template segment on either side matches any one segment. */
  predicate MatchTemplateOrExact(pattern: string, path: string)
  {
    var ps, os := SplitPath(pattern), SplitPath(path);
    |ps| == |os| && forall i | 0 <= i < |ps| :: SegMatches(ps[i], os[i])
  }

  /** The names of the template segments. fillPath does not trim the template. */
  function Placeholders(template: string): set<string>
  {
    set seg | seg in Split(template, SLASH) && IsTemplateSeg(seg) :: SegName(seg)
  }

  function FillSeg(seg: string, values: map<string, string>): string
  {
    if IsTemplateSeg(seg) && SegName(seg) in values then values[SegName(seg)] else seg
  }

  function FillSegs(segs: seq<string>, values: map<string, string>): (filled: seq<string>)
    ensures |filled| == |segs|
  {
    seq(|segs|, i requires 0 <= i < |segs| => FillSeg(segs[i], values))
  }

  /** The text of a template once every placeholder has its value. */
  function Filled(template: string, values: map<string, string>): string
    requires Placeholders(template) <= values.Keys
  {
    Join(FillSegs(Split(template, SLASH), values), SLASH)
  }

  // ---------- Segments without trimming text ----------

  function StripFront(parts: seq<string>): seq<string>
  {
    if parts != [] && parts[0] == "" then StripFront(parts[1..]) else parts
  }

  function StripBack(parts: seq<string>): seq<string>
  {
    if parts != [] && parts[|parts| - 1] == "" then StripBack(parts[..|parts| - 1]) else parts
  }

  lemma {:induction false} TrimLeftStrips(s: string)
    ensures StripFront(Split(s, SLASH)) == if TrimLeft(s, IsSlash) == "" then [] else Split(TrimLeft(s, IsSlash), SLASH)
  {
    if s != "" && s[0] == SLASH {
      TrimLeftStrips(s[1..]);
      assert Split(s, SLASH)[1..] == Split(s[1..], SLASH);
    }
  }

  lemma {:induction false} LastPartIsEmpty(s: string)
    requires s != ""
    ensures var parts := Split(s, SLASH); parts[|parts| - 1] == "" <==> s[|s| - 1] == SLASH
  {
    if |s| > 1 {
      LastPartIsEmpty(s[1..]);
    }
  }

  lemma {:induction false} TrimRightStrips(s: string)
    ensures StripBack(Split(s, SLASH)) == if TrimRight(s, IsSlash) == "" then [] else Split(TrimRight(s, IsSlash), SLASH)
  {
    if s != "" {
      LastPartIsEmpty(s);
      if s[|s| - 1] == SLASH {
        TrimRightStrips(s[..|s| - 1]);
        SplitEndsEmpty(s);
      }
    }
  }

  lemma SplitEndsEmpty(s: string)
    requires s != "" && s[|s| - 1] == SLASH
    ensures var parts := Split(s, SLASH);
            parts[|parts| - 1] == "" && parts[..|parts| - 1] == Split(s[..|s| - 1], SLASH)
  {
    var init := s[..|s| - 1];
    SplitConcat(init, SLASH, "");
    assert s == init + [SLASH] + "";
  }

  /** splitPath drops the empty parts at both ends of a plain split. */
  lemma SplitPathStrips(p: string)
    ensures SplitPath(p) == StripBack(StripFront(Split(p, SLASH)))
  {
    TrimLeftStrips(p);
    TrimRightStrips(TrimLeft(p, IsSlash));
  }

  /** Two part lists that are empty in the same places keep corresponding parts when stripped. */
  lemma {:induction false} StripFrontTogether(a: seq<string>, b: seq<string>)
    requires |a| == |b| && forall i | 0 <= i < |a| :: a[i] == "" <==> b[i] == ""
    ensures var k := |a| - |StripFront(a)|;
            0 <= k <= |a| && StripFront(a) == a[k..] && StripFront(b) == b[k..]
  {
    if a != [] && a[0] == "" {
      StripFrontTogether(a[1..], b[1..]);
    }
  }

  lemma {:induction false} StripBackTogether(a: seq<string>, b: seq<string>)
    requires |a| == |b| && forall i | 0 <= i < |a| :: a[i] == "" <==> b[i] == ""
    ensures var k := |StripBack(a)|;
            k <= |a| && StripBack(a) == a[..k] && StripBack(b) == b[..k]
  {
    if a != [] && a[|a| - 1] == "" {
      StripBackTogether(a[..|a| - 1], b[..|b| - 1]);
    }
  }

  lemma StrippedTogetherMatch(a: seq<string>, b: seq<string>)
    requires |a| == |b| && forall i | 0 <= i < |a| :: (a[i] == "" <==> b[i] == "") && SegMatches(a[i], b[i])
    ensures var a', b' := StripBack(StripFront(a)), StripBack(StripFront(b));
            |a'| == |b'| && forall i | 0 <= i < |a'| :: SegMatches(a'[i], b'[i])
  {
    StripFrontTogether(a, b);
    StripBackTogether(StripFront(a), StripFront(b));
  }

  // ---------- Main results ----------

  /** The values that stand for exactly one path segment. */
  predicate IsSegment(value: string)
  {
    value != "" && SLASH !in value
  }

  /** A template filled with one-segment values matches the template. */
  lemma FilledMatchesTemplate(template: string, values: map<string, string>)
    requires Placeholders(template) <= values.Keys
    requires forall name | name in Placeholders(template) :: IsSegment(values[name])
    ensures MatchTemplateOrExact(template, Filled(template, values))
  {
    var segs := Split(template, SLASH);
    var filled := FillSegs(segs, values);
    forall i | 0 <= i < |segs|
      ensures SLASH !in filled[i] && (segs[i] == "" <==> filled[i] == "") && SegMatches(segs[i], filled[i])
    {
      assert segs[i] in segs;
      if IsTemplateSeg(segs[i]) {
        assert SegName(segs[i]) in Placeholders(template);
      }
    }
    SplitJoin(filled, SLASH);
    SplitPathStrips(template);
    SplitPathStrips(Filled(template, values));
    StrippedTogetherMatch(segs, filled);
  }

  /** Filling with slash-free values replaces each template segment by its value and keeps the others. */
  lemma FilledSegments(template: string, values: map<string, string>)
    requires Placeholders(template) <= values.Keys
    requires forall name | name in Placeholders(template) :: SLASH !in values[name]
    ensures var segs, out := Split(template, SLASH), Split(Filled(template, values), SLASH);
            |out| == |segs| && forall i | 0 <= i < |segs| ::
              if IsTemplateSeg(segs[i]) then SegName(segs[i]) in values && out[i] == values[SegName(segs[i])]
              else out[i] == segs[i]
  {
    var segs := Split(template, SLASH);
    forall i | 0 <= i < |segs|
      ensures SLASH !in FillSegs(segs, values)[i]
      ensures IsTemplateSeg(segs[i]) ==> SegName(segs[i]) in values
    {
      assert segs[i] in segs;
      if IsTemplateSeg(segs[i]) {
        assert SegName(segs[i]) in Placeholders(template);
      }
    }
    SplitJoin(FillSegs(segs, values), SLASH);
  }

  /** Two slash-free fillings of a template that read alike have the same values. */
  lemma FilledDeterminesValues(template: string, a: map<string, string>, b: map<string, string>)
    requires Placeholders(template) <= a.Keys && Placeholders(template) <= b.Keys
    requires forall name | name in Placeholders(template) :: SLASH !in a[name] && SLASH !in b[name]
    ensures Filled(template, a) == Filled(template, b) <==> forall name | name in Placeholders(template) :: a[name] == b[name]
  {
    var segs := Split(template, SLASH);
    if Filled(template, a) == Filled(template, b) {
      FilledSegments(template, a);
      FilledSegments(template, b);
      forall name | name in Placeholders(template) ensures a[name] == b[name] {
        var seg :| seg in segs && IsTemplateSeg(seg) && SegName(seg) == name;
        var i :| 0 <= i < |segs| && segs[i] == seg;
      }
    } else {
      assert FillSegs(segs, a) != FillSegs(segs, b);
      var i :| 0 <= i < |segs| && FillSegs(segs, a)[i] != FillSegs(segs, b)[i];
      assert segs[i] in segs && IsTemplateSeg(segs[i]);
      assert SegName(segs[i]) in Placeholders(template);
    }
  }

  /**
   * A value is safe to substitute into every template exactly when it is a single segment: empty values
   * and values with a slash break some template.
   */
  lemma SafeValuesAreSegments(name: string, value: string)
    requires name != "" && SLASH !in name
    ensures IsSegment(value) <==>
            forall template | Placeholders(template) <= {name} ::
              MatchTemplateOrExact(template, Filled(template, map[name := value]))
  {
    if IsSegment(value) {
      forall template | Placeholders(template) <= {name}
        ensures MatchTemplateOrExact(template, Filled(template, map[name := value]))
      {
        FilledMatchesTemplate(template, map[name := value]);
      }
    } else {
      UnsafeValueBreaksTemplate(name, value);
    }
  }

  lemma UnsafeValueBreaksTemplate(name: string, value: string)
    requires name != "" && SLASH !in name && !IsSegment(value)
    ensures exists template :: Placeholders(template) <= {name}
                               && !MatchTemplateOrExact(template, Filled(template, map[name := value]))
  {
    if value == "" {
      EmptyValueBreaks(name);
    } else {
      SlashedValueBreaks(name, value);
    }
  }

  /** An empty value loses the only segment of the template. */
  lemma EmptyValueBreaks(name: string)
    requires name != "" && SLASH !in name
    ensures exists template :: Placeholders(template) <= {name}
                               && !MatchTemplateOrExact(template, Filled(template, map[name := ""]))
  {
    var template := "{" + name + "}";
    SplitAtom(template, SLASH);
    assert FillSegs(Split(template, SLASH), map[name := ""]) == [""];
    assert Filled(template, map[name := ""]) == "";
    assert TrimLeft("", IsSlash) == "" && SplitPath("") == [];
    TrimNoop(template, IsSlash);
    assert SplitPath(template) == [template];
  }

  /** A value with a slash makes more segments than the template has, between two fixed ones. */
  lemma SlashedValueBreaks(name: string, value: string)
    requires name != "" && SLASH !in name && SLASH in value
    ensures exists template :: Placeholders(template) <= {name}
                               && !MatchTemplateOrExact(template, Filled(template, map[name := value]))
  {
    var parts := ["a", "{" + name + "}", "b"];
    var template := Join(parts, SLASH);
    SplitJoin(parts, SLASH);
    assert Split(template, SLASH) == parts;
    SplitPathStrips(template);
    assert SplitPath(template) == parts;
    assert FillSegs(parts, map[name := value]) == ["a", value, "b"];
    BetweenFixedParts(value);
    assert !MatchTemplateOrExact(template, Filled(template, map[name := value]));
  }

  lemma BetweenFixedParts(value: string)
    requires SLASH in value
    ensures |SplitPath(Join(["a", value, "b"], SLASH))| > 3
  {
    var filled := Join(["a", value, "b"], SLASH);
    ThreeParts("a", value, "b");
    SplitConcat("a", SLASH, value + [SLASH] + "b");
    SplitConcat(value, SLASH, "b");
    SplitAtom("a", SLASH);
    SplitAtom("b", SLASH);
    assert Split(filled, SLASH) == ["a"] + (Split(value, SLASH) + ["b"]);
    SplitPathStrips(filled);
    SlashMeansTwoParts(value);
  }

  lemma ThreeParts(a: string, b: string, c: string)
    ensures Join([a, b, c], SLASH) == a + [SLASH] + (b + [SLASH] + c)
  {
    var abc, bc := [a, b, c], [b, c];
    assert abc[1..] == bc && bc[1..] == [c];
    assert Join([c], SLASH) == c;
    assert Join(bc, SLASH) == b + [SLASH] + c;
  }

  lemma {:induction false} SlashMeansTwoParts(s: string)
    requires SLASH in s
    ensures |Split(s, SLASH)| > 1
  {
    if s[0] != SLASH {
      SlashMeansTwoParts(s[1..]);
    }
  }

  /** Matching is reflexive and symmetric. */
  lemma MatchIsReflexiveSymmetric(a: string, b: string)
    ensures MatchTemplateOrExact(a, a)
    ensures MatchTemplateOrExact(a, b) <==> MatchTemplateOrExact(b, a)
  {
  }

  /** Stripping leaves no empty part at either end and takes parts only from the list. */
  lemma {:induction false} StripBackEnds(parts: seq<string>)
    ensures StripBack(parts) <= parts
    ensures StripBack(parts) != [] ==> StripBack(parts)[|StripBack(parts)| - 1] != ""
  {
    if parts != [] && parts[|parts| - 1] == "" {
      StripBackEnds(parts[..|parts| - 1]);
    }
  }

  lemma {:induction false} StripFrontEnds(parts: seq<string>)
    ensures StripFront(parts) != [] ==> StripFront(parts)[0] != ""
    ensures forall part | part in StripFront(parts) :: part in parts
  {
    if parts != [] && parts[0] == "" {
      StripFrontEnds(parts[1..]);
    }
  }

  /** What a path can split into: slash-free segments, the first and the last not empty. */
  predicate AreSegments(segs: seq<string>)
  {
    && (forall seg | seg in segs :: SLASH !in seg)
    && (segs != [] ==> segs[0] != "" && segs[|segs| - 1] != "")
  }

  lemma SplitPathSegments(p: string)
    ensures AreSegments(SplitPath(p))
  {
    SplitPathStrips(p);
    StripFrontEnds(Split(p, SLASH));
    StripBackEnds(StripFront(Split(p, SLASH)));
  }

  lemma JoinedSegments(segs: seq<string>)
    requires segs != [] && AreSegments(segs)
    ensures SplitPath(Join(segs, SLASH)) == segs
  {
    SplitJoin(segs, SLASH);
    SplitPathStrips(Join(segs, SLASH));
  }

  /** A path with one segment replaced by a plain one. */
  lemma ReplacedSegment(p: string, i: nat, seg: string) returns (q: string)
    requires i < |SplitPath(p)| && IsSegment(seg)
    ensures SplitPath(q) == SplitPath(p)[i := seg]
  {
    var segs := SplitPath(p)[i := seg];
    SplitPathSegments(p);
    forall part | part in segs ensures SLASH !in part {
      var k :| 0 <= k < |segs| && segs[k] == part;
      assert k != i ==> part == SplitPath(p)[k] && part in SplitPath(p);
    }
    q := Join(segs, SLASH);
    JoinedSegments(segs);
  }

  /** Matching through a path without template segments carries over. */
  lemma MatchesThroughFixed(a: string, b: string, c: string)
    requires forall seg | seg in SplitPath(b) :: !IsTemplateSeg(seg)
    requires MatchTemplateOrExact(a, b) && MatchTemplateOrExact(b, c)
    ensures MatchTemplateOrExact(a, c)
  {
    var as_, bs, cs := SplitPath(a), SplitPath(b), SplitPath(c);
    forall i | 0 <= i < |as_| ensures SegMatches(as_[i], cs[i]) {
      assert bs[i] in bs && SegMatches(as_[i], bs[i]) && SegMatches(bs[i], cs[i]);
    }
  }

  /** A template segment links two paths that differ in it. */
  lemma TemplateSegmentLinks(b: string, i: nat) returns (a: string, c: string)
    requires i < |SplitPath(b)| && IsTemplateSeg(SplitPath(b)[i])
    ensures MatchTemplateOrExact(a, b) && MatchTemplateOrExact(b, c) && !MatchTemplateOrExact(a, c)
  {
    a := ReplacedSegment(b, i, "x");
    c := ReplacedSegment(b, i, "y");
    assert SplitPath(a)[i] == "x" && SplitPath(c)[i] == "y";
    assert !SegMatches("x", "y");
  }

  /** Matching is transitive through exactly those paths that have no template segment. */
  lemma MatchIsTransitiveExactly(b: string)
    ensures (forall a, c | MatchTemplateOrExact(a, b) && MatchTemplateOrExact(b, c) :: MatchTemplateOrExact(a, c))
       <==> forall seg | seg in SplitPath(b) :: !IsTemplateSeg(seg)
  {
    if seg :| seg in SplitPath(b) && IsTemplateSeg(seg) {
      var i :| 0 <= i < |SplitPath(b)| && SplitPath(b)[i] == seg;
      var a, c := TemplateSegmentLinks(b, i);
    } else {
      forall a, c | MatchTemplateOrExact(a, b) && MatchTemplateOrExact(b, c) ensures MatchTemplateOrExact(a, c) {
        MatchesThroughFixed(a, b, c);
      }
    }
  }

  /** It is not transitive through `{x}`, which links segments that differ. */
  lemma MatchIsNotTransitive()
    ensures MatchTemplateOrExact("a", "{x}") && MatchTemplateOrExact("{x}", "b") && !MatchTemplateOrExact("a", "b")
  {
    SplitAtom("a", SLASH);
    SplitAtom("b", SLASH);
    SplitAtom("{x}", SLASH);
    TrimNoop("a", IsSlash);
    TrimNoop("b", IsSlash);
    TrimNoop("{x}", IsSlash);
    assert SplitPath("a") == ["a"] && SplitPath("b") == ["b"] && SplitPath("{x}") == ["{x}"];
  }

  predicate AllSlashes(s: string)
  {
    forall i | 0 <= i < |s| :: s[i] == SLASH
  }

  lemma {:induction false} TrimLeftSlashes(pre: string, p: string)
    requires AllSlashes(pre)
    ensures TrimLeft(pre + p, IsSlash) == TrimLeft(p, IsSlash)
  {
    if pre == "" {
      assert pre + p == p;
    } else {
      assert (pre + p)[1..] == pre[1..] + p;
      TrimLeftSlashes(pre[1..], p);
    }
  }

  lemma {:induction false} TrimRightSlashes(p: string, post: string)
    requires AllSlashes(post)
    ensures TrimRight(p + post, IsSlash) == TrimRight(p, IsSlash)
  {
    if post == "" {
      assert p + post == p;
    } else {
      var last := |post| - 1;
      assert (p + post)[..|p + post| - 1] == p + post[..last];
      TrimRightSlashes(p, post[..last]);
    }
  }

  lemma {:induction false} TrimLeftOfRight(p: string, post: string)
    requires AllSlashes(post)
    ensures TrimLeft(p + post, IsSlash) == if TrimLeft(p, IsSlash) == "" then "" else TrimLeft(p, IsSlash) + post
  {
    if p == "" {
      assert p + post == post + "";
      TrimLeftSlashes(post, "");
    } else if p[0] == SLASH {
      assert (p + post)[1..] == p[1..] + post;
      TrimLeftOfRight(p[1..], post);
    }
  }

  /** Slashes added at either end of a path change no match. */
  lemma EndSlashesDoNotMatter(pre: string, p: string, post: string, other: string)
    requires AllSlashes(pre) && AllSlashes(post)
    ensures SplitPath(pre + p + post) == SplitPath(p)
    ensures MatchTemplateOrExact(pre + p + post, other) <==> MatchTemplateOrExact(p, other)
  {
    assert pre + p + post == pre + (p + post);
    TrimLeftSlashes(pre, p + post);
    TrimLeftOfRight(p, post);
    TrimRightSlashes(TrimLeft(p, IsSlash), post);
  }

  // ---------- The match, segment by segment ----------

  /** A template segment is a name in braces. */
  lemma TemplateSegMeans(seg: string)
    ensures IsTemplateSeg(seg) <==> exists name :: name != "" && seg == "{" + name + "}"
    ensures IsTemplateSeg(seg) ==> SegName(seg) != "" && seg == "{" + SegName(seg) + "}"
    ensures forall name | name != "" && seg == "{" + name + "}" :: IsTemplateSeg(seg) && SegName(seg) == name
  {
    if IsTemplateSeg(seg) {
      assert seg == "{" + seg[1..|seg| - 1] + "}";
    }
    forall name | name != "" && seg == "{" + name + "}" ensures IsTemplateSeg(seg) && SegName(seg) == name {
      assert seg[0] == '{' && seg[|seg| - 1] == '}' && seg[1..|seg| - 1] == name;
    }
  }

  /** The placeholders are the names in braces that stand alone between slashes. */
  lemma PlaceholdersMean(template: string, name: string)
    ensures name in Placeholders(template) <==> name != "" && "{" + name + "}" in Split(template, SLASH)
  {
    var braced := "{" + name + "}";
    TemplateSegMeans(braced);
    if name in Placeholders(template) {
      var seg :| seg in Split(template, SLASH) && IsTemplateSeg(seg) && SegName(seg) == name;
      TemplateSegMeans(seg);
    }
  }

  /** Some name in braces. */
  ghost predicate IsBraced(seg: string)
  {
    exists name :: name != "" && seg == "{" + name + "}"
  }

  /** Two paths match exactly when they have the same segments, apart from places where one has braces. */
  lemma MatchMeans(a: string, b: string)
    ensures MatchTemplateOrExact(a, b) <==>
              && |SplitPath(a)| == |SplitPath(b)|
              && forall i | 0 <= i < |SplitPath(a)| && !IsBraced(SplitPath(a)[i]) && !IsBraced(SplitPath(b)[i]) ::
                   SplitPath(a)[i] == SplitPath(b)[i]
  {
    forall seg ensures IsTemplateSeg(seg) <==> IsBraced(seg) {
      TemplateSegMeans(seg);
    }
    if MatchTemplateOrExact(a, b) {
      forall i | 0 <= i < |SplitPath(a)| && !IsBraced(SplitPath(a)[i]) && !IsBraced(SplitPath(b)[i])
        ensures SplitPath(a)[i] == SplitPath(b)[i]
      {
        assert SegMatches(SplitPath(a)[i], SplitPath(b)[i]);
      }
    }
  }

  /** Without braces on either side only the same segments match. */
  lemma FixedPathsMatchExactly(a: string, b: string)
    requires forall seg | seg in SplitPath(a) + SplitPath(b) :: !IsBraced(seg)
    ensures MatchTemplateOrExact(a, b) <==> SplitPath(a) == SplitPath(b)
  {
    MatchMeans(a, b);
    var as_, bs := SplitPath(a), SplitPath(b);
    forall i | 0 <= i < |as_| ensures !IsBraced(as_[i]) {
      assert (as_ + bs)[i] == as_[i] && as_[i] in as_ + bs;
    }
    forall i | 0 <= i < |bs| ensures !IsBraced(bs[i]) {
      assert (as_ + bs)[|as_| + i] == bs[i] && bs[i] in as_ + bs;
    }
  }

  /** What replacing the braced segments of a template, one by one, can give. */
  ghost predicate IsInstance(template: seq<string>, segs: seq<string>)
  {
    exists values: seq<string> ::
      && |values| == |template|
      && segs == seq(|template|, i requires 0 <= i < |template| => if IsTemplateSeg(template[i]) then values[i] else template[i])
  }

  /** A template matches exactly the brace-free paths that come of replacing its braced segments. */
  lemma TemplateMatchesInstances(template: string, path: string)
    requires forall seg | seg in SplitPath(path) :: !IsBraced(seg)
    ensures MatchTemplateOrExact(template, path) <==> IsInstance(SplitPath(template), SplitPath(path))
  {
    MatchMeans(template, path);
    var ts, ps := SplitPath(template), SplitPath(path);
    forall i | 0 <= i < |ps| ensures !IsBraced(ps[i]) {
      assert ps[i] in ps;
    }
    forall i | 0 <= i < |ts| ensures IsTemplateSeg(ts[i]) <==> IsBraced(ts[i]) {
      TemplateSegMeans(ts[i]);
    }
    if MatchTemplateOrExact(template, path) {
      assert ps == seq(|ts|, i requires 0 <= i < |ts| => if IsTemplateSeg(ts[i]) then ps[i] else ts[i]);
    }
  }
}
