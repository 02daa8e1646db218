/**
 * The command line the SSH connector sends, and the shell that reads it back: the token recognition,
 * quoting and assignment rules of sections 2.2, 2.3, 2.9.1 and 2.9.3 of POSIX.1-2017 XCU.
 */
module Shell {
  import opened Text
  import opened Wrappers

  // ---------- The printer ----------

  datatype ExecRequest = ExecRequest(command: string, args: seq<string>, workdir: string, env: map<string, string>)

  const SQ: char := '\''

  function ShellQuote(s: string): string
  {
    if s == "" then "''" else [SQ] + ReplaceAll(s, SQ, "'\\''") + [SQ]
  }

  function QuoteAll(words: seq<string>): seq<string>
  {
    seq(|words|, i requires 0 <= i < |words| => ShellQuote(words[i]))
  }

  /** `keys` lists every variable of `env` once, in the order a map iteration happened to visit them. */
  ghost predicate IsOrderOf(keys: seq<string>, env: map<string, string>)
  {
    && (forall k :: k in keys <==> k in env)
    && forall i, j | 0 <= i < j < |keys| :: keys[i] != keys[j]
  }

  function Exports(keys: seq<string>, env: map<string, string>): seq<string>
    requires forall k | k in keys :: k in env
  {
    seq(|keys|, i requires 0 <= i < |keys| => keys[i] + "=" + ShellQuote(env[keys[i]]))
  }

  /** The part of the command line after the environment. */
  function MovedProgram(req: ExecRequest): string
  {
    var words := Join(QuoteAll([req.command] + req.args), ' ');
    if req.workdir == "" then words else "cd " + ShellQuote(req.workdir) + " && " + words
  }

  /** The command line for one iteration order of the environment. */
  function CommandLine(req: ExecRequest, keys: seq<string>): string
    requires forall k | k in keys :: k in req.env
  {
    if keys == [] then MovedProgram(req) else Join(Exports(keys, req.env), ' ') + " " + MovedProgram(req)
  }

  // ---------- The shell ----------

  /** A character of a token, and whether it was quoted. */
  datatype QChar = Q(c: char, quoted: bool)

  datatype Token = Word(chars: seq<QChar>) | AndIf

  /** Where the tokenizer stands; `word` is the token being built. */
  datatype Mode =
    | Blank
    | InWord(word: seq<QChar>)
    | Single(word: seq<QChar>)
    | Escape(word: seq<QChar>)
    | Ampersand

  datatype Lexer = Lexer(tokens: seq<Token>, mode: Mode)

  /** Characters that need quoting to stand for themselves, apart from the ones the tokenizer treats below. */
  predicate IsSpecial(c: char)
  {
    c in "|;<>()$`\"*?[#~%\n\0"
  }

  /** Reads one character; None when the input leaves the grammar of quoted words and and-lists. */
  function Step(l: Lexer, c: char): Option<Lexer>
  {
    match l.mode
    case Single(w) =>
      if c == '\0' then None
      else Some(l.(mode := if c == SQ then InWord(w) else Single(w + [Q(c, true)])))
    case Escape(w) =>
      if c == '\n' || c == '\0' then None else Some(l.(mode := InWord(w + [Q(c, true)])))
    case Ampersand =>
      if c == '&' then Some(Lexer(l.tokens + [AndIf], Blank)) else None
    case _ =>
      var w := if l.mode.InWord? then l.mode.word else [];
      var ended := if l.mode.InWord? then l.tokens + [Word(w)] else l.tokens;
      if c == ' ' || c == '\t' then Some(Lexer(ended, Blank))
      else if c == '&' then Some(Lexer(ended, Ampersand))
      else if c == SQ then Some(l.(mode := Single(w)))
      else if c == '\\' then Some(l.(mode := Escape(w)))
      else if IsSpecial(c) then None
      else Some(l.(mode := InWord(w + [Q(c, false)])))
  }

  function Run(l: Lexer, s: string): Option<Lexer>
    decreases |s|
  {
    if s == "" then Some(l)
    else
      match Step(l, s[0])
      case None => None
      case Some(next) => Run(next, s[1..])
  }

  /** The tokens of a complete input; None also when a quotation or an operator is left open. */
  function Tokenize(s: string): Option<seq<Token>>
  {
    match Run(Lexer([], Blank), s)
    case Some(Lexer(tokens, Blank)) => Some(tokens)
    case Some(Lexer(tokens, InWord(w))) => Some(tokens + [Word(w)])
    case _ => None
  }

  /** Quote removal. */
  function Unquoted(w: seq<QChar>): (s: string)
    ensures |s| == |w|
  {
    seq(|w|, i requires 0 <= i < |w| => w[i].c)
  }

  function UnquotedAll(ws: seq<seq<QChar>>): (words: seq<string>)
    ensures |words| == |ws|
  {
    seq(|ws|, i requires 0 <= i < |ws| => Unquoted(ws[i]))
  }

  predicate IsNameStart(c: char)
  {
    'a' <= c <= 'z' || 'A' <= c <= 'Z' || c == '_'
  }

  /** Section 3.235 of POSIX.1-2017 XBD. */
  predicate IsName(s: string)
  {
    s != "" && IsNameStart(s[0]) && forall i | 0 <= i < |s| :: IsNameStart(s[i]) || '0' <= s[i] <= '9'
  }

  /** The position of the first unquoted equals sign, or the length of the word. */
  function FirstEquals(w: seq<QChar>): (n: nat)
    ensures n <= |w|
    ensures n < |w| ==> w[n] == Q('=', false)
    ensures forall i | 0 <= i < n :: w[i] != Q('=', false)
  {
    if w == [] || w[0] == Q('=', false) then 0 else 1 + FirstEquals(w[1..])
  }

  /** Rule 7 of section 2.10.2: an unquoted name before the first unquoted equals sign. */
  predicate IsAssignment(w: seq<QChar>)
  {
    var n := FirstEquals(w);
    n < |w| && IsName(Unquoted(w[..n])) && forall i | 0 <= i < n :: !w[i].quoted
  }

  datatype SimpleCommand = SimpleCommand(assignments: seq<(string, string)>, words: seq<string>)

  /** Section 2.9.1: leading assignment words are assignments, everything after them is a field. */
  function ParseSimple(ws: seq<seq<QChar>>): (c: SimpleCommand)
    ensures forall a | a in c.assignments :: IsName(a.0)
  {
    if ws != [] && IsAssignment(ws[0]) then
      var n := FirstEquals(ws[0]);
      var rest := ParseSimple(ws[1..]);
      rest.(assignments := [(Unquoted(ws[0][..n]), Unquoted(ws[0][n + 1..]))] + rest.assignments)
    else
      SimpleCommand([], UnquotedAll(ws))
  }

  /** The words before the first `&&`, and the tokens after it. */
  function LeadingWords(tokens: seq<Token>): (ws: seq<seq<QChar>>)
    ensures |ws| <= |tokens|
    ensures |ws| < |tokens| ==> tokens[|ws|] == AndIf
  {
    if tokens == [] || tokens[0] == AndIf then [] else [tokens[0].chars] + LeadingWords(tokens[1..])
  }

  /** Section 2.9.3: an and-list of simple commands, none of them empty. */
  function ParseAndList(tokens: seq<Token>): Option<seq<SimpleCommand>>
    decreases |tokens|
  {
    var ws := LeadingWords(tokens);
    if ws == [] then None
    else if |ws| == |tokens| then Some([ParseSimple(ws)])
    else
      match ParseAndList(tokens[|ws| + 1..])
      case None => None
      case Some(rest) => Some([ParseSimple(ws)] + rest)
  }

  function Parse(line: string): Option<seq<SimpleCommand>>
  {
    match Tokenize(line)
    case None => None
    case Some(tokens) => ParseAndList(tokens)
  }

  // ---------- What the command line means ----------

  function Bindings(keys: seq<string>, env: map<string, string>): seq<(string, string)>
    requires forall k | k in keys :: k in env
  {
    seq(|keys|, i requires 0 <= i < |keys| => (keys[i], env[keys[i]]))
  }

  /** What the shell is meant to read: the environment stands before the first simple command. */
  function Meaning(req: ExecRequest, keys: seq<string>): seq<SimpleCommand>
    requires forall k | k in keys :: k in req.env
  {
    var program := [req.command] + req.args;
    if req.workdir == "" then [SimpleCommand(Bindings(keys, req.env), program)]
    else [SimpleCommand(Bindings(keys, req.env), ["cd", req.workdir]), SimpleCommand([], program)]
  }

  predicate NulFree(s: string)
  {
    '\0' !in s
  }

  /** A request the shell can represent: no NUL anywhere and every variable has a valid name. */
  ghost predicate Expressible(req: ExecRequest)
  {
    && NulFree(req.command) && NulFree(req.workdir)
    && (forall a | a in req.args :: NulFree(a))
    && forall k | k in req.env :: IsName(k) && NulFree(req.env[k])
  }

  // ---------- Proof ----------

  function Marked(s: string, quoted: bool): seq<QChar>
  {
    seq(|s|, i requires 0 <= i < |s| => Q(s[i], quoted))
  }

  lemma UnquotedMarked(s: string, quoted: bool)
    ensures Unquoted(Marked(s, quoted)) == s
  {
  }

  lemma {:induction false} RunConcat(l: Lexer, a: string, b: string)
    ensures Run(l, a + b) == match Run(l, a) case None => None case Some(m) => Run(m, b)
    decreases |a|
  {
    if a == "" {
      assert a + b == b;
    } else {
      assert (a + b)[1..] == a[1..] + b;
      if Step(l, a[0]).Some? {
        RunConcat(Step(l, a[0]).value, a[1..], b);
      }
    }
  }

  /** A NUL anywhere makes the tokenizer fail. */
  lemma {:induction false} RunSeesNul(l: Lexer, s: string)
    requires Run(l, s).Some?
    ensures NulFree(s)
    decreases |s|
  {
    if s != "" {
      RunSeesNul(Step(l, s[0]).value, s[1..]);
    }
  }

  /** Inside single quotes, an escaped text is read back literally. */
  lemma {:induction false} RunEscaped(l: Lexer, w: seq<QChar>, s: string)
    requires NulFree(s) && l.mode == Single(w)
    ensures Run(l, ReplaceAll(s, SQ, "'\\''")) == Some(l.(mode := Single(w + Marked(s, true))))
    decreases |s|
  {
    if s == "" {
      assert w + Marked(s, true) == w;
    } else {
      var w' := w + [Q(s[0], true)];
      var next := l.(mode := Single(w'));
      var head := if s[0] == SQ then "'\\''" else [s[0]];
      var rest := ReplaceAll(s[1..], SQ, "'\\''");
      if s[0] == SQ {
        RunQuoteEscape(l, w);
      } else {
        assert Run(next, "") == Some(next);
      }
      assert Run(l, head) == Some(next);
      RunConcat(l, head, rest);
      RunEscaped(next, w', s[1..]);
      assert w' + Marked(s[1..], true) == w + Marked(s, true);
    }
  }

  lemma RunQuoteEscape(l: Lexer, w: seq<QChar>)
    requires l.mode == Single(w)
    ensures Run(l, "'\\''") == Some(l.(mode := Single(w + [Q(SQ, true)])))
  {
    var l1 := l.(mode := InWord(w));
    var l2 := l.(mode := Escape(w));
    var l3 := l.(mode := InWord(w + [Q(SQ, true)]));
    var l4 := l.(mode := Single(w + [Q(SQ, true)]));
    assert Run(l4, "") == Some(l4);
    assert "'"[1..] == "";
    assert Run(l3, "'") == Some(l4);
    assert "''"[1..] == "'";
    assert Run(l2, "''") == Some(l4);
    assert "\\''"[1..] == "''";
    assert Run(l1, "\\''") == Some(l4);
    assert "'\\''"[1..] == "\\''";
  }

  /** A quoted text extends the current word by exactly its characters. */
  lemma RunQuoted(l: Lexer, s: string)
    requires NulFree(s) && (l.mode.Blank? || l.mode.InWord?)
    ensures var w := if l.mode.InWord? then l.mode.word else [];
            Run(l, ShellQuote(s)) == Some(l.(mode := InWord(w + Marked(s, true))))
  {
    var w := if l.mode.InWord? then l.mode.word else [];
    var quoting := l.(mode := Single(w));
    var inside := ReplaceAll(s, SQ, "'\\''");
    var filled := l.(mode := Single(w + Marked(s, true)));
    var closed := l.(mode := InWord(w + Marked(s, true)));
    assert ShellQuote(s) == [SQ] + (inside + [SQ]);
    assert ([SQ] + (inside + [SQ]))[1..] == inside + [SQ];
    assert Run(l, ShellQuote(s)) == Run(quoting, inside + [SQ]);
    RunEscaped(quoting, w, s);
    RunConcat(quoting, inside, [SQ]);
    assert Run(closed, "") == Some(closed);
    assert Run(filled, [SQ]) == Some(closed);
  }

  /** Started between tokens, `text` leaves the tokenizer inside the word `w`. */
  ghost predicate Reads(text: string, w: seq<QChar>)
  {
    forall tokens :: Run(Lexer(tokens, Blank), text) == Some(Lexer(tokens, InWord(w)))
  }

  function AsTokens(ws: seq<seq<QChar>>): (tokens: seq<Token>)
    ensures |tokens| == |ws|
  {
    seq(|ws|, i requires 0 <= i < |ws| => Word(ws[i]))
  }

  /** All words but the last are finished tokens, the last one is still open. */
  function Ending(tokens: seq<Token>, ws: seq<seq<QChar>>): Lexer
    requires ws != []
  {
    Lexer(tokens + AsTokens(ws[..|ws| - 1]), InWord(ws[|ws| - 1]))
  }

  /** A blank finishes the current word. */
  lemma BlankEndsWord(tokens: seq<Token>, w: seq<QChar>, rest: string)
    ensures Run(Lexer(tokens, InWord(w)), [' '] + rest) == Run(Lexer(tokens + [Word(w)], Blank), rest)
  {
    assert ([' '] + rest)[1..] == rest;
  }

  lemma EndingShifts(tokens: seq<Token>, ws: seq<seq<QChar>>)
    requires |ws| > 1
    ensures Ending(tokens, ws) == Ending(tokens + [Word(ws[0])], ws[1..])
  {
    assert tokens + AsTokens(ws[..|ws| - 1]) == tokens + [Word(ws[0])] + AsTokens(ws[1..][..|ws| - 2]);
  }

  lemma JoinFirst(texts: seq<string>)
    requires |texts| > 1
    ensures Join(texts, ' ') == texts[0] + ([' '] + Join(texts[1..], ' '))
  {
  }

  /** Words separated by blanks. */
  lemma {:induction false} RunWords(tokens: seq<Token>, texts: seq<string>, ws: seq<seq<QChar>>)
    requires |texts| == |ws| > 0
    requires forall i | 0 <= i < |ws| :: Reads(texts[i], ws[i])
    ensures Run(Lexer(tokens, Blank), Join(texts, ' ')) == Some(Ending(tokens, ws))
    decreases |ws|
  {
    var start := Lexer(tokens, Blank);
    assert Run(start, texts[0]) == Some(Lexer(tokens, InWord(ws[0])));
    if |ws| == 1 {
      assert tokens + AsTokens(ws[..0]) == tokens;
    } else {
      var rest := Join(texts[1..], ' ');
      JoinFirst(texts);
      RunConcat(start, texts[0], [' '] + rest);
      BlankEndsWord(tokens, ws[0], rest);
      RunWords(tokens + [Word(ws[0])], texts[1..], ws[1..]);
      EndingShifts(tokens, ws);
    }
  }

  /** A blank after the last word finishes its token. */
  lemma EndWord(tokens: seq<Token>, text: string, ws: seq<seq<QChar>>)
    requires ws != []
    requires Run(Lexer(tokens, Blank), text) == Some(Ending(tokens, ws))
    ensures Run(Lexer(tokens, Blank), text + " ") == Some(Lexer(tokens + AsTokens(ws), Blank))
  {
    var done := Lexer(tokens + AsTokens(ws), Blank);
    RunConcat(Lexer(tokens, Blank), text, " ");
    assert Run(done, "") == Some(done);
    assert Ending(tokens, ws).tokens + [Word(ws[|ws| - 1])] == done.tokens;
    assert Run(Ending(tokens, ws), " ") == Some(done);
  }

  lemma RunAndIf(tokens: seq<Token>)
    ensures Run(Lexer(tokens, Blank), "&& ") == Some(Lexer(tokens + [AndIf], Blank))
  {
    var done := Lexer(tokens + [AndIf], Blank);
    assert Run(done, "") == Some(done);
    assert Run(done, " ") == Some(done);
    assert "& "[1..] == " ";
    assert Run(Lexer(tokens, Ampersand), "& ") == Some(done);
    assert "&& "[1..] == "& ";
  }

  lemma ReadsQuoted(s: string)
    requires NulFree(s)
    ensures Reads(ShellQuote(s), Marked(s, true))
  {
    forall tokens
      ensures Run(Lexer(tokens, Blank), ShellQuote(s)) == Some(Lexer(tokens, InWord(Marked(s, true))))
    {
      RunQuoted(Lexer(tokens, Blank), s);
      assert [] + Marked(s, true) == Marked(s, true);
    }
  }

  predicate IsPlain(c: char)
  {
    c !in " \t&'\\" && !IsSpecial(c)
  }

  /** Plain characters outside quotes extend the current word. */
  lemma {:induction false} RunPlain(l: Lexer, s: string)
    requires l.mode.InWord? || (l.mode.Blank? && s != "")
    requires forall c | c in s :: IsPlain(c)
    ensures var w := if l.mode.InWord? then l.mode.word else [];
            Run(l, s) == Some(l.(mode := InWord(w + Marked(s, false))))
    decreases |s|
  {
    var w := if l.mode.InWord? then l.mode.word else [];
    if s == "" {
      assert w + Marked(s, false) == w;
    } else {
      assert IsPlain(s[0]);
      RunPlain(l.(mode := InWord(w + [Q(s[0], false)])), s[1..]);
      assert w + [Q(s[0], false)] + Marked(s[1..], false) == w + Marked(s, false);
    }
  }

  function AssignmentWord(key: string, value: string): seq<QChar>
  {
    Marked(key + "=", false) + Marked(value, true)
  }

  lemma ReadsAssignment(key: string, value: string)
    requires IsName(key) && NulFree(value)
    ensures Reads(key + "=" + ShellQuote(value), AssignmentWord(key, value))
  {
    forall tokens
      ensures Run(Lexer(tokens, Blank), key + "=" + ShellQuote(value))
           == Some(Lexer(tokens, InWord(AssignmentWord(key, value))))
    {
      var l := Lexer(tokens, Blank);
      RunPlain(l, key + "=");
      assert [] + Marked(key + "=", false) == Marked(key + "=", false);
      RunConcat(l, key + "=", ShellQuote(value));
      RunQuoted(l.(mode := InWord(Marked(key + "=", false))), value);
    }
  }

  lemma ReadsCd()
    ensures Reads("cd", Marked("cd", false))
  {
    forall tokens
      ensures Run(Lexer(tokens, Blank), "cd") == Some(Lexer(tokens, InWord(Marked("cd", false))))
    {
      RunPlain(Lexer(tokens, Blank), "cd");
      assert [] + Marked("cd", false) == Marked("cd", false);
    }
  }

  function QuotedWords(words: seq<string>): seq<seq<QChar>>
  {
    seq(|words|, i requires 0 <= i < |words| => Marked(words[i], true))
  }

  lemma UnquotedQuoted(words: seq<string>)
    ensures UnquotedAll(QuotedWords(words)) == words
  {
    forall i | 0 <= i < |words| ensures UnquotedAll(QuotedWords(words))[i] == words[i] {
      UnquotedMarked(words[i], true);
    }
  }

  function AssignmentWords(keys: seq<string>, env: map<string, string>): seq<seq<QChar>>
    requires forall k | k in keys :: k in env
  {
    seq(|keys|, i requires 0 <= i < |keys| => AssignmentWord(keys[i], env[keys[i]]))
  }

  lemma {:induction false} FirstEqualsAt(w: seq<QChar>, n: nat)
    requires n <= |w|
    requires forall i | 0 <= i < n :: w[i] != Q('=', false)
    requires n < |w| ==> w[n] == Q('=', false)
    ensures FirstEquals(w) == n
  {
    if w != [] && n > 0 {
      FirstEqualsAt(w[1..], n - 1);
    }
  }

  /** An assignment word splits at its equals sign into the name and the value. */
  lemma AssignmentWordSplits(key: string, value: string)
    requires IsName(key)
    ensures var w, n := AssignmentWord(key, value), |key|;
            && IsAssignment(w) && FirstEquals(w) == n < |w|
            && Unquoted(w[..n]) == key && Unquoted(w[n + 1..]) == value
  {
    var w, n := AssignmentWord(key, value), |key|;
    assert forall i | 0 <= i < n :: w[i] == Q(key[i], false) && key[i] != '=';
    FirstEqualsAt(w, n);
    assert Unquoted(w[..n]) == key;
    assert Unquoted(w[n + 1..]) == value;
  }

  /** One more assignment word in front is one more assignment. */
  lemma OneMoreAssignment(key: string, value: string, ws: seq<seq<QChar>>)
    requires IsName(key)
    ensures var rest := ParseSimple(ws);
            ParseSimple([AssignmentWord(key, value)] + ws) == rest.(assignments := [(key, value)] + rest.assignments)
  {
    AssignmentWordSplits(key, value);
    assert ([AssignmentWord(key, value)] + ws)[1..] == ws;
  }

  lemma FirstKey(keys: seq<string>, env: map<string, string>, ws: seq<seq<QChar>>)
    requires keys != [] && forall k | k in keys :: k in env
    ensures AssignmentWords(keys, env) + ws
         == [AssignmentWord(keys[0], env[keys[0]])] + (AssignmentWords(keys[1..], env) + ws)
    ensures Bindings(keys, env) == [(keys[0], env[keys[0]])] + Bindings(keys[1..], env)
  {
  }

  lemma NoAssignments(ws: seq<seq<QChar>>)
    requires ws != [] && FirstEquals(ws[0]) == |ws[0]|
    ensures ParseSimple(ws) == SimpleCommand([], UnquotedAll(ws))
  {
  }

  /** Assignment words are recognised as assignments, fully quoted words and `cd` are not. */
  lemma {:induction false} ParseSimpleSplits(keys: seq<string>, env: map<string, string>, ws: seq<seq<QChar>>)
    requires forall k | k in keys :: k in env && IsName(k)
    requires ws != [] && FirstEquals(ws[0]) == |ws[0]|
    ensures ParseSimple(AssignmentWords(keys, env) + ws)
         == SimpleCommand(Bindings(keys, env), UnquotedAll(ws))
  {
    if keys == [] {
      assert AssignmentWords(keys, env) + ws == ws;
      NoAssignments(ws);
    } else {
      FirstKey(keys, env, ws);
      OneMoreAssignment(keys[0], env[keys[0]], AssignmentWords(keys[1..], env) + ws);
      ParseSimpleSplits(keys[1..], env, ws);
    }
  }

  lemma {:induction false} LeadingWordsOf(ws: seq<seq<QChar>>, rest: seq<Token>)
    requires rest == [] || rest[0] == AndIf
    ensures LeadingWords(AsTokens(ws) + rest) == ws
  {
    var tokens := AsTokens(ws) + rest;
    if ws != [] {
      assert tokens[1..] == AsTokens(ws[1..]) + rest;
      LeadingWordsOf(ws[1..], rest);
    }
  }

  /** The tokens of an expressible request. */
  function LineTokens(req: ExecRequest, keys: seq<string>): seq<Token>
    requires forall k | k in keys :: k in req.env
  {
    BeforeProgram(AsTokens(AssignmentWords(keys, req.env)), req) + AsTokens(QuotedWords([req.command] + req.args))
  }

  lemma AsTokensConcat(a: seq<seq<QChar>>, b: seq<seq<QChar>>)
    ensures AsTokens(a + b) == AsTokens(a) + AsTokens(b)
  {
  }

  lemma RunEnvironment(req: ExecRequest, keys: seq<string>)
    requires Expressible(req) && keys != []
    requires forall k | k in keys :: k in req.env
    ensures Run(Lexer([], Blank), Join(Exports(keys, req.env), ' ') + " ")
         == Some(Lexer(AsTokens(AssignmentWords(keys, req.env)), Blank))
  {
    var texts, ws := Exports(keys, req.env), AssignmentWords(keys, req.env);
    forall i | 0 <= i < |keys| ensures Reads(texts[i], ws[i]) {
      ReadsAssignment(keys[i], req.env[keys[i]]);
    }
    RunWords([], texts, ws);
    EndWord([], Join(texts, ' '), ws);
    assert [] + AsTokens(ws) == AsTokens(ws);
  }

  lemma RunProgram(tokens: seq<Token>, req: ExecRequest)
    requires Expressible(req)
    ensures Run(Lexer(tokens, Blank), Join(QuoteAll([req.command] + req.args), ' '))
         == Some(Ending(tokens, QuotedWords([req.command] + req.args)))
  {
    var words := [req.command] + req.args;
    forall i | 0 <= i < |words| ensures Reads(QuoteAll(words)[i], QuotedWords(words)[i]) {
      ReadsQuoted(words[i]);
    }
    RunWords(tokens, QuoteAll(words), QuotedWords(words));
  }

  lemma RunWorkdir(tokens: seq<Token>, req: ExecRequest)
    requires Expressible(req)
    ensures Run(Lexer(tokens, Blank), "cd " + ShellQuote(req.workdir) + " && ")
         == Some(Lexer(tokens + AsTokens(ChangeDir(req)) + [AndIf], Blank))
  {
    var texts, ws := ["cd", ShellQuote(req.workdir)], ChangeDir(req);
    ReadsCd();
    ReadsQuoted(req.workdir);
    assert texts[1..] == [texts[1]];
    assert Join(texts, ' ') == "cd" + [' '] + ShellQuote(req.workdir);
    RunWords(tokens, texts, ws);
    EndWord(tokens, Join(texts, ' '), ws);
    RunConcat(Lexer(tokens, Blank), Join(texts, ' ') + " ", "&& ");
    RunAndIf(tokens + AsTokens(ws));
    assert "cd " + ShellQuote(req.workdir) + " && " == Join(texts, ' ') + " " + "&& ";
  }

  function ChangeDir(req: ExecRequest): seq<seq<QChar>>
  {
    [Marked("cd", false), Marked(req.workdir, true)]
  }

  function BeforeProgram(tokens: seq<Token>, req: ExecRequest): seq<Token>
  {
    if req.workdir == "" then tokens else tokens + AsTokens(ChangeDir(req)) + [AndIf]
  }

  /** The program, with or without a change of directory before it, from a point between tokens. */
  lemma RunMoved(tokens: seq<Token>, req: ExecRequest)
    requires Expressible(req)
    ensures Run(Lexer(tokens, Blank), MovedProgram(req))
         == Some(Ending(BeforeProgram(tokens, req), QuotedWords([req.command] + req.args)))
  {
    if req.workdir == "" {
      RunProgram(tokens, req);
    } else {
      RunWorkdir(tokens, req);
      RunProgram(BeforeProgram(tokens, req), req);
      RunConcat(Lexer(tokens, Blank), "cd " + ShellQuote(req.workdir) + " && ",
                Join(QuoteAll([req.command] + req.args), ' '));
    }
  }

  lemma RunLine(req: ExecRequest, keys: seq<string>)
    requires Expressible(req)
    requires forall k | k in keys :: k in req.env
    ensures Run(Lexer([], Blank), CommandLine(req, keys))
         == Some(Ending(BeforeProgram(AsTokens(AssignmentWords(keys, req.env)), req),
                        QuotedWords([req.command] + req.args)))
  {
    RunMoved(AsTokens(AssignmentWords(keys, req.env)), req);
    if keys == [] {
      assert AsTokens(AssignmentWords(keys, req.env)) == [];
    } else {
      RunEnvironment(req, keys);
      RunConcat(Lexer([], Blank), Join(Exports(keys, req.env), ' ') + " ", MovedProgram(req));
    }
  }

  lemma TokenizeEnding(line: string, before: seq<Token>, ws: seq<seq<QChar>>)
    requires ws != []
    requires Run(Lexer([], Blank), line) == Some(Ending(before, ws))
    ensures Tokenize(line) == Some(before + AsTokens(ws))
  {
    var last := |ws| - 1;
    assert before + AsTokens(ws[..last]) + [Word(ws[last])] == before + AsTokens(ws);
  }

  lemma TokenizeLine(req: ExecRequest, keys: seq<string>)
    requires Expressible(req)
    requires forall k | k in keys :: k in req.env
    ensures Tokenize(CommandLine(req, keys)) == Some(LineTokens(req, keys))
  {
    RunLine(req, keys);
    TokenizeEnding(CommandLine(req, keys), BeforeProgram(AsTokens(AssignmentWords(keys, req.env)), req),
                   QuotedWords([req.command] + req.args));
  }

  lemma ParseLine(req: ExecRequest, keys: seq<string>)
    requires Expressible(req)
    requires forall k | k in keys :: k in req.env
    ensures ParseAndList(LineTokens(req, keys)) == Some(Meaning(req, keys))
  {
    var words := [req.command] + req.args;
    var program := QuotedWords(words);
    var assignments := AssignmentWords(keys, req.env);
    FirstEqualsAt(program[0], |program[0]|);
    UnquotedQuoted(words);
    if req.workdir == "" {
      AsTokensConcat(assignments, program);
      assert LineTokens(req, keys) == AsTokens(assignments + program) + [];
      LeadingWordsOf(assignments + program, []);
      ParseSimpleSplits(keys, req.env, program);
    } else {
      ParseProgram(req);
      ParseChangeDir(req, keys);
      var ws := assignments + ChangeDir(req);
      var rest := [AndIf] + AsTokens(program);
      AsTokensConcat(assignments, ChangeDir(req));
      assert LineTokens(req, keys) == AsTokens(ws) + rest;
      LeadingWordsOf(ws, rest);
      var tokens := LineTokens(req, keys);
      assert LeadingWords(tokens) == ws && ws != [] && |ws| < |tokens|;
      assert tokens[|ws| + 1..] == AsTokens(program);
      assert ParseAndList(tokens) == Some([ParseSimple(ws)] + [SimpleCommand([], words)]);
      assert [ParseSimple(ws)] + [SimpleCommand([], words)] == Meaning(req, keys);
    }
  }

  lemma ParseProgram(req: ExecRequest)
    ensures var words := [req.command] + req.args;
            ParseAndList(AsTokens(QuotedWords(words))) == Some([SimpleCommand([], words)])
  {
    var words := [req.command] + req.args;
    var program := QuotedWords(words);
    FirstEqualsAt(program[0], |program[0]|);
    UnquotedQuoted(words);
    LeadingWordsOf(program, []);
    assert AsTokens(program) + [] == AsTokens(program);
  }

  lemma ParseChangeDir(req: ExecRequest, keys: seq<string>)
    requires Expressible(req)
    requires forall k | k in keys :: k in req.env
    ensures ParseSimple(AssignmentWords(keys, req.env) + ChangeDir(req))
         == SimpleCommand(Bindings(keys, req.env), ["cd", req.workdir])
  {
    var cd := ChangeDir(req);
    FirstEqualsAt(cd[0], |cd[0]|);
    ParseSimpleSplits(keys, req.env, cd);
    UnquotedMarked("cd", false);
    UnquotedMarked(req.workdir, true);
    assert UnquotedAll(cd) == ["cd", req.workdir];
  }

  // ---------- Main results ----------

  lemma {:induction false} QuoteKeepsNul(s: string, c: char, repl: string)
    requires c != '\0' && '\0' in s
    ensures '\0' in ReplaceAll(s, c, repl)
  {
    if s[0] != '\0' {
      QuoteKeepsNul(s[1..], c, repl);
    }
  }

  /** Every part of the parts joined shows up in the joined text. */
  lemma {:induction false} JoinKeeps(parts: seq<string>, i: nat, c: char)
    requires i < |parts| && c in parts[i]
    ensures c in Join(parts, ' ')
  {
    if |parts| > 1 && i > 0 {
      JoinKeeps(parts[1..], i - 1, c);
    }
  }

  /** A line the shell accepts was printed from NUL-free texts. */
  lemma AcceptedIsNulFree(req: ExecRequest, keys: seq<string>)
    requires IsOrderOf(keys, req.env)
    requires NulFree(CommandLine(req, keys))
    ensures NulFree(req.command) && NulFree(req.workdir)
    ensures forall a | a in req.args :: NulFree(a)
    ensures forall k | k in req.env :: NulFree(req.env[k])
  {
    var words := [req.command] + req.args;
    var program := Join(QuoteAll(words), ' ');
    assert forall c | c in program :: c in MovedProgram(req);
    assert forall c | c in MovedProgram(req) :: c in CommandLine(req, keys);
    forall i | 0 <= i < |words| ensures NulFree(words[i]) {
      if !NulFree(words[i]) {
        QuoteKeepsNul(words[i], SQ, "'\\''");
        JoinKeeps(QuoteAll(words), i, '\0');
      }
    }
    assert words[0] == req.command && forall i | 0 <= i < |req.args| :: words[i + 1] == req.args[i];
    if !NulFree(req.workdir) {
      QuoteKeepsNul(req.workdir, SQ, "'\\''");
    }
    forall i | 0 <= i < |keys| ensures NulFree(req.env[keys[i]]) {
      if !NulFree(req.env[keys[i]]) {
        QuoteKeepsNul(req.env[keys[i]], SQ, "'\\''");
        JoinKeeps(Exports(keys, req.env), i, '\0');
      }
    }
  }

  /** The parser only ever reports assignments to valid names. */
  lemma {:induction false} ParsedNamesAreValid(tokens: seq<Token>)
    requires ParseAndList(tokens).Some?
    ensures forall c, a | c in ParseAndList(tokens).value && a in c.assignments :: IsName(a.0)
    decreases |tokens|
  {
    var ws := LeadingWords(tokens);
    if |ws| < |tokens| {
      ParsedNamesAreValid(tokens[|ws| + 1..]);
    }
  }

  /**
   * The shell reads a command line back as the request it was printed from exactly when the request is
   * expressible: no text holds a NUL and every environment key is a valid name. This covers any
   * arguments, with or without a working directory, an environment, or both, in any iteration order.
   */
  lemma ShellRoundTrip(req: ExecRequest, keys: seq<string>)
    requires IsOrderOf(keys, req.env)
    ensures Parse(CommandLine(req, keys)) == Some(Meaning(req, keys)) <==> Expressible(req)
  {
    if Expressible(req) {
      TokenizeLine(req, keys);
      ParseLine(req, keys);
    } else if Parse(CommandLine(req, keys)) == Some(Meaning(req, keys)) {
      RunSeesNul(Lexer([], Blank), CommandLine(req, keys));
      AcceptedIsNulFree(req, keys);
      ParsedNamesAreValid(Tokenize(CommandLine(req, keys)).value);
      forall k | k in req.env ensures IsName(k) {
        var i :| 0 <= i < |keys| && keys[i] == k;
        assert Bindings(keys, req.env)[i].0 == k;
        assert Meaning(req, keys)[0].assignments[i] in Meaning(req, keys)[0].assignments;
        assert Meaning(req, keys)[0] in Meaning(req, keys);
      }
    }
  }

  /** The commands a shell executes, and the variables it adds to the environment of the last one. */
  function ProgramEnvironment(commands: seq<SimpleCommand>): map<string, string>
    requires commands != []
  {
    AsMap(commands[|commands| - 1].assignments)
  }

  function AsMap(bindings: seq<(string, string)>): map<string, string>
  {
    if bindings == [] then map[]
    else AsMap(bindings[..|bindings| - 1])[bindings[|bindings| - 1].0 := bindings[|bindings| - 1].1]
  }

  lemma {:induction false} AsMapOfBindings(keys: seq<string>, env: map<string, string>)
    requires forall k | k in keys :: k in env
    ensures AsMap(Bindings(keys, env)) == map k | k in env && k in keys :: env[k]
  {
    if keys != [] {
      var last := |keys| - 1;
      AsMapOfBindings(keys[..last], env);
      assert Bindings(keys, env)[..last] == Bindings(keys[..last], env);
      assert forall k :: k in keys <==> k in keys[..last] || k == keys[last];
    }
  }

  lemma {:induction false} AsMapHas(bindings: seq<(string, string)>, k: string)
    ensures k in AsMap(bindings) <==> exists a :: a in bindings && a.0 == k
  {
    if bindings != [] {
      var last := |bindings| - 1;
      AsMapHas(bindings[..last], k);
      assert bindings == bindings[..last] + [bindings[last]];
    }
  }

  /** Of the line as it was meant, the program gets the environment unless `cd` takes it. */
  lemma MeaningReachesProgram(req: ExecRequest, keys: seq<string>)
    requires IsOrderOf(keys, req.env)
    ensures ProgramEnvironment(Meaning(req, keys)) == req.env <==> req.env == map[] || req.workdir == ""
  {
    AsMapOfBindings(keys, req.env);
  }

  /**
   * The shell accepts the line and reads it as the requested program in the requested environment, after
   * a change to the requested directory if there is one.
   */
  predicate ReadsAsRequested(req: ExecRequest, line: string)
  {
    match Parse(line)
    case None => false
    case Some(commands) =>
      && |commands| == (if req.workdir == "" then 1 else 2)
      && (req.workdir != "" ==> commands[0].words == ["cd", req.workdir])
      && commands[|commands| - 1].words == [req.command] + req.args
      && ProgramEnvironment(commands) == req.env
  }

  /** An environment the shell hands to a program has valid names. */
  lemma ReachedNamesAreValid(req: ExecRequest, line: string)
    requires ReadsAsRequested(req, line)
    ensures forall k | k in req.env :: IsName(k)
  {
    var commands := Parse(line).value;
    var program := commands[|commands| - 1];
    ParsedNamesAreValid(Tokenize(line).value);
    forall k | k in req.env ensures IsName(k) {
      AsMapHas(program.assignments, k);
      var a :| a in program.assignments && a.0 == k;
      assert program in commands;
    }
  }

  /**
   * The shell reads the printed line as requested, with the requested environment for the program, exactly
   * when the request is expressible and has no environment to pass or no working directory: with both, the
   * assignments stand before `cd` and apply to it alone.
   */
  lemma EnvironmentReachesProgram(req: ExecRequest, keys: seq<string>)
    requires IsOrderOf(keys, req.env)
    ensures ReadsAsRequested(req, CommandLine(req, keys))
       <==> Expressible(req) && (req.env == map[] || req.workdir == "")
  {
    var line := CommandLine(req, keys);
    if ReadsAsRequested(req, line) {
      RunSeesNul(Lexer([], Blank), line);
      AcceptedIsNulFree(req, keys);
      ReachedNamesAreValid(req, line);
    }
    ShellRoundTrip(req, keys);
    MeaningReachesProgram(req, keys);
  }

  /** With an environment and a working directory, `cd` gets the variables and the program none. */
  lemma WorkdirTakesEnvironment(req: ExecRequest, keys: seq<string>)
    requires IsOrderOf(keys, req.env) && Expressible(req) && req.env != map[] && req.workdir != ""
    ensures Parse(CommandLine(req, keys))
         == Some([SimpleCommand(Bindings(keys, req.env), ["cd", req.workdir]), SimpleCommand([], [req.command] + req.args)])
    ensures !ReadsAsRequested(req, CommandLine(req, keys))
  {
    ShellRoundTrip(req, keys);
    EnvironmentReachesProgram(req, keys);
  }

  /** A request it happens to: the program `p` runs in `d` without the variable `A`. */
  lemma EnvironmentCanBeLost() returns (req: ExecRequest, keys: seq<string>)
    ensures req == ExecRequest("p", [], "d", map["A" := "b"]) && IsOrderOf(keys, req.env) && Expressible(req)
    ensures !ReadsAsRequested(req, CommandLine(req, keys))
  {
    req, keys := ExecRequest("p", [], "d", map["A" := "b"]), ["A"];
    assert "A" in req.env;
    WorkdirTakesEnvironment(req, keys);
  }

  /** A variable whose name starts with a digit: the shell does not read its assignment as one. */
  lemma InvalidNameIsNotPassed() returns (req: ExecRequest, keys: seq<string>)
    ensures req == ExecRequest("p", [], "", map["1A" := "x"]) && IsOrderOf(keys, req.env)
    ensures !ReadsAsRequested(req, CommandLine(req, keys))
  {
    req, keys := ExecRequest("p", [], "", map["1A" := "x"]), ["1A"];
    assert "1A" in req.env && !IsName("1A");
    EnvironmentReachesProgram(req, keys);
  }

  /** Appends the words one by one, then puts the directory change and the environment in front. */
  method BuildCommand(req: ExecRequest) returns (cmd: string)
    ensures exists keys :: IsOrderOf(keys, req.env) && cmd == CommandLine(req, keys)
    ensures Expressible(req) ==> exists keys :: IsOrderOf(keys, req.env) && Parse(cmd) == Some(Meaning(req, keys))
    ensures !Expressible(req) ==> !exists keys :: IsOrderOf(keys, req.env) && cmd == CommandLine(req, keys)
                                                  && Parse(cmd) == Some(Meaning(req, keys))
  {
    var parts := [ShellQuote(req.command)];
    for i := 0 to |req.args|
      invariant parts == QuoteAll([req.command] + req.args[..i])
    {
      parts := parts + [ShellQuote(req.args[i])];
      assert parts == QuoteAll([req.command] + req.args[..i + 1]);
    }
    assert req.args[..|req.args|] == req.args;
    cmd := Join(parts, ' ');
    if req.workdir != "" {
      cmd := "cd " + ShellQuote(req.workdir) + " && " + cmd;
    }
    ghost var keys := [];
    if |req.env| > 0 {
      var exports := [];
      var pending := req.env.Keys;
      while pending != {}
        invariant pending <= req.env.Keys
        invariant forall k :: k in keys <==> k in req.env.Keys - pending
        invariant forall i, j | 0 <= i < j < |keys| :: keys[i] != keys[j]
        invariant exports == Exports(keys, req.env)
        decreases |pending|
      {
        var k :| k in pending;
        assert k !in keys;
        pending := pending - {k};
        exports := exports + [k + "=" + ShellQuote(req.env[k])];
        keys := keys + [k];
      }
      cmd := Join(exports, ' ') + " " + cmd;
    }
    assert IsOrderOf(keys, req.env);
    assert cmd == CommandLine(req, keys);
    ShellRoundTrip(req, keys);
    if !Expressible(req) {
      forall ks | IsOrderOf(ks, req.env) && cmd == CommandLine(req, ks)
        ensures Parse(cmd) != Some(Meaning(req, ks))
      {
        ShellRoundTrip(req, ks);
      }
    }
  }
}
