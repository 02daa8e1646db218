/** The parts of Go's `strings` package the repository relies on, over sequences of code points. */
module Text {

  /** strings.Join with a one-character separator. */
  function Join(parts: seq<string>, sep: char): string
  {
    if |parts| == 0 then ""
    else if |parts| == 1 then parts[0]
    else parts[0] + [sep] + Join(parts[1..], sep)
  }

  /** strings.Split with a one-character separator: joining undoes it and no part holds the separator. */
  function Split(s: string, sep: char): (parts: seq<string>)
    ensures |parts| > 0
    ensures Join(parts, sep) == s
    ensures forall p | p in parts :: sep !in p
  {
    if s == "" then [""]
    else
      var rest := Split(s[1..], sep);
      if s[0] == sep then
        var parts := [""] + rest;
        assert parts[1..] == rest;
        parts
      else
        var parts := [[s[0]] + rest[0]] + rest[1..];
        assert parts[1..] == rest[1..];
        parts
  }

  /** Splitting distributes over a separator. */
  lemma {:induction false} SplitConcat(a: string, sep: char, b: string)
    ensures Split(a + [sep] + b, sep) == Split(a, sep) + Split(b, sep)
  {
    var s := a + [sep] + b;
    if a == "" {
      assert s[1..] == b;
    } else {
      assert s[1..] == a[1..] + [sep] + b;
      SplitConcat(a[1..], sep, b);
    }
  }

  lemma {:induction false} SplitAtom(p: string, sep: char)
    requires sep !in p
    ensures Split(p, sep) == [p]
  {
    if p != "" {
      SplitAtom(p[1..], sep);
      assert p == [p[0]] + p[1..];
    }
  }

  /** Split undoes Join on separator-free parts. */
  lemma {:induction false} SplitJoin(parts: seq<string>, sep: char)
    requires |parts| > 0
    requires forall p | p in parts :: sep !in p
    ensures Split(Join(parts, sep), sep) == parts
  {
    SplitAtom(parts[0], sep);
    if |parts| > 1 {
      SplitConcat(parts[0], sep, Join(parts[1..], sep));
      SplitJoin(parts[1..], sep);
    }
  }

  /** strings.TrimLeftFunc */
  function TrimLeft(s: string, cut: char -> bool): string
  {
    if s != "" && cut(s[0]) then TrimLeft(s[1..], cut) else s
  }

  /** strings.TrimRightFunc */
  function TrimRight(s: string, cut: char -> bool): string
  {
    if s != "" && cut(s[|s| - 1]) then TrimRight(s[..|s| - 1], cut) else s
  }

  /** strings.TrimFunc, which strings.Trim and strings.TrimSpace are cases of. */
  function Trim(s: string, cut: char -> bool): string
  {
    TrimRight(TrimLeft(s, cut), cut)
  }

  /** unicode.IsSpace */
  predicate IsSpace(c: char)
  {
    || '\t' <= c <= '\r' || c == ' ' || c == '\U{0085}' || c == '\U{00A0}' || c == '\U{1680}'
    || '\U{2000}' <= c <= '\U{200A}' || c == '\U{2028}' || c == '\U{2029}' || c == '\U{202F}'
    || c == '\U{205F}' || c == '\U{3000}'
  }

  function TrimSpace(s: string): string
  {
    Trim(s, IsSpace)
  }

  /** strings.ReplaceAll of one character by a string. */
  function ReplaceAll(s: string, c: char, repl: string): string
  {
    if s == "" then "" else (if s[0] == c then repl else [s[0]]) + ReplaceAll(s[1..], c, repl)
  }

  function LowerChar(c: char): char
  {
    if 'A' <= c <= 'Z' then c + ' ' else c
  }

  function UpperChar(c: char): char
  {
    if 'a' <= c <= 'z' then c - ' ' else c
  }

  /** strings.ToLower on ASCII letters; other characters are kept. */
  function ToLower(s: string): (t: string)
    ensures |t| == |s|
  {
    seq(|s|, i requires 0 <= i < |s| => LowerChar(s[i]))
  }

  /** strings.ToUpper on ASCII letters; other characters are kept. */
  function ToUpper(s: string): (t: string)
    ensures |t| == |s|
  {
    seq(|s|, i requires 0 <= i < |s| => UpperChar(s[i]))
  }

  predicate HasPrefix(s: string, prefix: string)
  {
    prefix <= s
  }

  /** strings.Contains */
  predicate Contains(s: string, sub: string)
  {
    exists i | 0 <= i <= |s| :: sub <= s[i..]
  }

  lemma {:induction false} TrimNoop(s: string, cut: char -> bool)
    requires s == "" || (!cut(s[0]) && !cut(s[|s| - 1]))
    ensures Trim(s, cut) == s
  {
  }

  lemma {:induction false} ReplaceNoop(s: string, c: char, repl: string)
    requires c !in s
    ensures ReplaceAll(s, c, repl) == s
  {
    if s != "" {
      ReplaceNoop(s[1..], c, repl);
      assert s == [s[0]] + s[1..];
    }
  }

  // ---------- What these mean ----------

  /** Trimming takes characters of the cut set off both ends, as many as there are. */
  lemma TrimMeans(s: string, cut: char -> bool) returns (front: string, back: string)
    ensures s == front + Trim(s, cut) + back
    ensures (forall c | c in front :: cut(c)) && forall c | c in back :: cut(c)
    ensures var t := Trim(s, cut); t != "" ==> !cut(t[0]) && !cut(t[|t| - 1])
  {
    front := TrimLeftMeans(s, cut);
    back := TrimRightMeans(TrimLeft(s, cut), cut);
    var t := Trim(s, cut);
    if t != "" {
      assert TrimLeft(s, cut)[0] == t[0];
    }
  }

  lemma Prepended(s: string, a: string, b: string)
    requires s != "" && s[1..] == a + b
    ensures s == [s[0]] + a + b
  {
  }

  lemma Appended(s: string, a: string, b: string)
    requires s != "" && s[..|s| - 1] == a + b
    ensures s == a + (b + [s[|s| - 1]])
  {
    assert s == s[..|s| - 1] + [s[|s| - 1]];
  }

  lemma {:induction false} TrimLeftMeans(s: string, cut: char -> bool) returns (front: string)
    ensures s == front + TrimLeft(s, cut) && forall c | c in front :: cut(c)
    ensures var t := TrimLeft(s, cut); t != "" ==> !cut(t[0])
  {
    if s != "" && cut(s[0]) {
      var rest := TrimLeftMeans(s[1..], cut);
      front := [s[0]] + rest;
      Prepended(s, rest, TrimLeft(s[1..], cut));
    } else {
      front := "";
    }
  }

  lemma {:induction false} TrimRightMeans(s: string, cut: char -> bool) returns (back: string)
    ensures s == TrimRight(s, cut) + back && forall c | c in back :: cut(c)
    ensures var t := TrimRight(s, cut); t != "" ==> !cut(t[|t| - 1])
  {
    if s != "" && cut(s[|s| - 1]) {
      var rest := TrimRightMeans(s[..|s| - 1], cut);
      back := rest + [s[|s| - 1]];
      Appended(s, TrimRight(s[..|s| - 1], cut), rest);
    } else {
      back := "";
    }
  }

  const LOWER := "abcdefghijklmnopqrstuvwxyz"
  const UPPER := "ABCDEFGHIJKLMNOPQRSTUVWXYZ"

  lemma LetterAt(i: nat)
    requires i < 26
    ensures UPPER[i] as int == 'A' as int + i && LOWER[i] as int == 'a' as int + i
  {
  }

  /** The two alphabets are exchanged letter by letter, and all other characters are kept. */
  lemma CaseMeans(c: char)
    ensures forall i | 0 <= i < 26 :: LowerChar(UPPER[i]) == LOWER[i] && UpperChar(LOWER[i]) == UPPER[i]
    ensures c !in UPPER ==> LowerChar(c) == c
    ensures c !in LOWER ==> UpperChar(c) == c
  {
    forall i | 0 <= i < 26 ensures LowerChar(UPPER[i]) == LOWER[i] && UpperChar(LOWER[i]) == UPPER[i] {
      LetterAt(i);
    }
    if 'A' <= c <= 'Z' {
      LetterAt(c as int - 'A' as int);
    }
    if 'a' <= c <= 'z' {
      LetterAt(c as int - 'a' as int);
    }
  }

  /** The characters of a text that are kept, in order. */
  function Keep(s: string, keep: char -> bool): string
  {
    if s == "" then "" else (if keep(s[0]) then [s[0]] else "") + Keep(s[1..], keep)
  }

  lemma {:induction false} ReplaceDrops(s: string, c: char)
    ensures ReplaceAll(s, c, "") == Keep(s, x => x != c)
  {
    if s != "" {
      ReplaceDrops(s[1..], c);
    }
  }

  lemma {:induction false} KeepTwice(s: string, p: char -> bool, q: char -> bool, both: char -> bool)
    requires forall c | c in s :: both(c) == (p(c) && q(c))
    ensures Keep(Keep(s, p), q) == Keep(s, both)
  {
    if s != "" {
      KeepTwice(s[1..], p, q, both);
      if p(s[0]) {
        assert Keep(s, p)[0] == s[0] && Keep(s, p)[1..] == Keep(s[1..], p);
      } else {
        assert Keep(s, p) == Keep(s[1..], p);
      }
    }
  }

  const SPACES := "\t\n\U{000B}\U{000C}\r \U{0085}\U{00A0}\U{1680}" +
    "\U{2000}\U{2001}\U{2002}\U{2003}\U{2004}\U{2005}\U{2006}\U{2007}\U{2008}\U{2009}\U{200A}" +
    "\U{2028}\U{2029}\U{202F}\U{205F}\U{3000}"

  /** The characters of the White_Space property. */
  lemma SpacesMean(c: char)
    ensures IsSpace(c) <==> c in SPACES
  {
  }

  /** Nothing is left of a text exactly when it is all white space. */
  lemma BlankMeans(s: string)
    ensures TrimSpace(s) == "" <==> forall c | c in s :: IsSpace(c)
  {
    var front, back := TrimMeans(s, IsSpace);
    var t := TrimSpace(s);
    if t == "" {
      assert s == front + back;
    } else {
      assert t[0] in t && s == front + t + back;
    }
  }
}
