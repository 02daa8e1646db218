/**
 * Glob patterns of Discovery rules: `matchGlob` compiles a glob to the text of a regular expression,
 * which the RE2 engine parses and searches for.
 */
module Glob {
  import opened Wrappers

  // ---------- The fragment of RE2 the compiler writes ----------

  datatype Node = Lit(c: char) | Dot | BeginText | EndText | Star(node: Node)

  type Regex = seq<Node>

  predicate IsPunctuation(c: char)
  {
    '!' <= c <= '/' || ':' <= c <= '@' || '[' <= c <= '`' || '{' <= c <= '~'
  }

  /** One unrepeated expression at the start of `t`, and what follows it; None outside the fragment. */
  function ParseAtom(t: string): (r: Option<(Node, string)>)
    requires t != ""
    ensures r.Some? ==> |r.value.1| < |t|
  {
    if t[0] == '\\' then
      if |t| >= 2 && IsPunctuation(t[1]) then Some((Lit(t[1]), t[2..])) else None
    else if t[0] == '^' then Some((BeginText, t[1..]))
    else if t[0] == '$' then Some((EndText, t[1..]))
    else if t[0] == '.' then Some((Dot, t[1..]))
    else if t[0] in "*+?()[]{}|" then None
    else Some((Lit(t[0]), t[1..]))
  }

  /** regexp.Compile: a star must follow an expression and may not be repeated itself. */
  function ParseRegex(t: string): Option<Regex>
  {
    if t == "" then Some([])
    else
      match ParseAtom(t)
      case None => None
      case Some((node, rest)) =>
        var starred := rest != "" && rest[0] == '*';
        var tail := if starred then rest[1..] else rest;
        match ParseRegex(tail)
        case None => None
        case Some(nodes) => Some([if starred then Star(node) else node] + nodes)
  }

  /** One character is consumed by a literal or a dot; a dot does not match a newline. */
  predicate Consumes(node: Node, c: char)
  {
    match node
    case Lit(d) => c == d
    case Dot => c != '\n'
    case _ => false
  }

  /** Some run of characters from position `i` matches the expression. */
  predicate MatchesAt(re: Regex, s: string, i: nat)
    requires i <= |s|
    decreases |re|, |s| - i
  {
    if re == [] then true
    else
      match re[0]
      case BeginText => i == 0 && MatchesAt(re[1..], s, i)
      case EndText => i == |s| && MatchesAt(re[1..], s, i)
      case Star(node) => MatchesAt(re[1..], s, i) || (i < |s| && Consumes(node, s[i]) && MatchesAt(re, s, i + 1))
      case node => i < |s| && Consumes(node, s[i]) && MatchesAt(re[1..], s, i + 1)
  }

  /** Regexp.MatchString: an unanchored search. */
  predicate MatchString(re: Regex, s: string)
  {
    exists i | 0 <= i <= |s| :: MatchesAt(re, s, i)
  }

  // ---------- What a glob means ----------

  /** What one pattern character may stand for. */
  predicate PieceFits(c: char, piece: string)
  {
    if c == '*' then '\n' !in piece
    else if c == '?' then |piece| == 1 && piece[0] != '\n'
    else piece == [c]
  }

  function Concat(pieces: seq<string>): string
  {
    if pieces == [] then "" else pieces[0] + Concat(pieces[1..])
  }

  ghost predicate IsCut(pattern: string, pieces: seq<string>, s: string)
  {
    && |pieces| == |pattern|
    && Concat(pieces) == s
    && forall k | 0 <= k < |pattern| :: PieceFits(pattern[k], pieces[k])
  }

  /** The text can be cut into one fitting piece for each pattern character. */
  ghost predicate GlobMatches(pattern: string, s: string)
  {
    exists pieces :: IsCut(pattern, pieces, s)
  }

  // ---------- The compiler ----------

  predicate IsMeta(c: char)
  {
    c in ".+()|[]{}^$\\"
  }

  function CharText(c: char): string
  {
    if c == '*' then ".*" else if c == '?' then "." else if IsMeta(c) then ['\\', c] else [c]
  }

  function Body(pattern: string): string
  {
    if pattern == "" then "" else CharText(pattern[0]) + Body(pattern[1..])
  }

  function CharNode(c: char): Node
  {
    if c == '*' then Star(Dot) else if c == '?' then Dot else Lit(c)
  }

  function Nodes(pattern: string): Regex
  {
    if pattern == "" then [EndText] else [CharNode(pattern[0])] + Nodes(pattern[1..])
  }

  lemma {:induction false} BodyAppend(a: string, c: char)
    ensures Body(a + [c]) == Body(a) + CharText(c)
  {
    if a == "" {
      assert (a + [c])[1..] == "" && Body("") == "";
    } else {
      assert (a + [c])[1..] == a[1..] + [c];
      BodyAppend(a[1..], c);
    }
  }

  /** The text of one character parses to its node, whatever non-star text follows. */
  lemma ParseCharText(c: char, rest: string, re: Regex)
    requires ParseRegex(rest) == Some(re)
    requires rest != "" && rest[0] != '*'
    ensures ParseRegex(CharText(c) + rest) == Some([CharNode(c)] + re)
    ensures (CharText(c) + rest)[0] != '*'
  {
    var t := CharText(c) + rest;
    if c == '*' {
      assert t[1..] == ['*'] + rest && t[1..][1..] == rest;
    } else if c == '?' {
      assert t[1..] == rest;
    } else if IsMeta(c) {
      assert t[2..] == rest;
      assert ParseAtom(t) == Some((Lit(c), rest));
    } else {
      assert t[1..] == rest;
      assert ParseAtom(t) == Some((Lit(c), rest));
    }
  }

  lemma {:induction false} ParseBody(pattern: string)
    ensures ParseRegex(Body(pattern) + "$") == Some(Nodes(pattern))
    ensures Body(pattern) + "$" != "" && (Body(pattern) + "$")[0] != '*'
  {
    if pattern == "" {
      assert Body(pattern) + "$" == "$" && "$"[1..] == "";
      assert ParseRegex("$") == Some([EndText] + []);
      assert [EndText] + [] == Nodes(pattern);
    } else {
      ParseBody(pattern[1..]);
      ParseCharText(pattern[0], Body(pattern[1..]) + "$", Nodes(pattern[1..]));
      assert Body(pattern) + "$" == CharText(pattern[0]) + (Body(pattern[1..]) + "$");
    }
  }

  /** The pattern text always parses, to one node for each pattern character between the anchors. */
  lemma GlobTextParses(pattern: string)
    ensures ParseRegex("^" + Body(pattern) + "$") == Some([BeginText] + Nodes(pattern))
  {
    ParseBody(pattern);
    var t := "^" + Body(pattern) + "$";
    assert t[1..] == Body(pattern) + "$";
  }

  /** A match of the compiled nodes cuts the rest of the text into fitting pieces. */
  lemma {:induction false} MatchGivesCut(pattern: string, s: string, i: nat) returns (pieces: seq<string>)
    requires i <= |s| && MatchesAt(Nodes(pattern), s, i)
    ensures IsCut(pattern, pieces, s[i..])
    decreases |pattern|, |s| - i
  {
    var re := Nodes(pattern);
    if pattern == "" {
      assert re[0] == EndText;
      pieces := [];
    } else {
      assert re[1..] == Nodes(pattern[1..]);
      if pattern[0] == '*' {
        if MatchesAt(re[1..], s, i) {
          var rest := MatchGivesCut(pattern[1..], s, i);
          pieces := [""] + rest;
          assert pieces[1..] == rest;
        } else {
          var grown := MatchGivesCut(pattern, s, i + 1);
          pieces := [[s[i]] + grown[0]] + grown[1..];
          assert pieces[1..] == grown[1..];
          assert s[i..] == [s[i]] + s[i + 1..];
        }
      } else {
        var rest := MatchGivesCut(pattern[1..], s, i + 1);
        pieces := [[s[i]]] + rest;
        assert pieces[1..] == rest;
        assert s[i..] == [s[i]] + s[i + 1..];
      }
    }
  }

  /** A cut of the rest of the text is a match of the compiled nodes. */
  lemma {:induction false} CutGivesMatch(pattern: string, pieces: seq<string>, s: string, i: nat)
    requires i <= |s| && IsCut(pattern, pieces, s[i..])
    ensures MatchesAt(Nodes(pattern), s, i)
    decreases |pattern|, |s| - i
  {
    var re := Nodes(pattern);
    if pattern == "" {
      assert s[i..] == "";
    } else {
      assert re[1..] == Nodes(pattern[1..]);
      assert PieceFits(pattern[0], pieces[0]);
      if pieces[0] == "" {
        assert s[i..] == Concat(pieces[1..]);
        CutGivesMatch(pattern[1..], pieces[1..], s, i);
      } else {
        assert s[i] == s[i..][0] == pieces[0][0];
        assert s[i + 1..] == pieces[0][1..] + Concat(pieces[1..]);
        if pattern[0] == '*' {
          var shorter := [pieces[0][1..]] + pieces[1..];
          assert shorter[1..] == pieces[1..];
          CutGivesMatch(pattern, shorter, s, i + 1);
        } else {
          assert pieces[0][1..] == "";
          assert s[i + 1..] == Concat(pieces[1..]);
          CutGivesMatch(pattern[1..], pieces[1..], s, i + 1);
        }
      }
    }
  }

  /** Searching for the compiled expression decides the glob, whatever the pattern and the text. */
  lemma CompiledGlobIsExact(pattern: string, s: string)
    ensures MatchString([BeginText] + Nodes(pattern), s) <==> GlobMatches(pattern, s)
  {
    var re := [BeginText] + Nodes(pattern);
    assert re[1..] == Nodes(pattern);
    assert s[0..] == s;
    if MatchString(re, s) {
      var i :| 0 <= i <= |s| && MatchesAt(re, s, i);
      var pieces := MatchGivesCut(pattern, s, 0);
    }
    if GlobMatches(pattern, s) {
      var pieces :| IsCut(pattern, pieces, s);
      CutGivesMatch(pattern, pieces, s, 0);
      assert MatchesAt(re, s, 0);
    }
  }

  /**
   * matchGlob writes the expression character by character, compiles it and searches. The compilation
   * cannot fail, so the fallback to path.Match is never taken.
   */
  method MatchGlob(pattern: string, s: string) returns (ok: bool)
    ensures ok <==> GlobMatches(pattern, s)
  {
    var b := "^";
    for i := 0 to |pattern|
      invariant b == "^" + Body(pattern[..i])
    {
      var c := pattern[i];
      if c == '*' {
        b := b + ".*";
      } else if c == '?' {
        b := b + ".";
      } else if IsMeta(c) {
        b := b + ['\\', c];
      } else {
        b := b + [c];
      }
      BodyAppend(pattern[..i], c);
      assert pattern[..i + 1] == pattern[..i] + [c];
    }
    b := b + "$";
    assert pattern[..|pattern|] == pattern;
    GlobTextParses(pattern);
    ok := false;
    match ParseRegex(b) {
      case None => assert false;
      case Some(re) =>
        ok := MatchString(re, s);
        CompiledGlobIsExact(pattern, s);
    }
  }
}
