/** host/claudesession.go: commands quoted twice over - for the shell that SSH starts,
    and for the login shell that one runs - against the quoting and token
    recognition rules of the Shell Command Language (sections 2.2 and 2.3 of
    IEEE Std 1003.1-2017). */
module ShellQuote {
  import opened GoText

  // ------------------------------------------------------- the shell's reading

  datatype Token = Word(text: string) | Op(text: string)

  /** Where the scan is: between tokens, in a word, in single quotes, after a
      backslash, in an operator, or at something this model has no rule for. */
  datatype Mode = Blank | InWord(word: string) | Single(word: string) | Escape(word: string) | InOp(op: string) | Bad

  datatype Scan = Scan(tokens: seq<Token>, mode: Mode)

  /** Double quotes, expansions, patterns and braces. */
  predicate Special(c: char) {
    || c == '"' || c == '$' || c == '`' || c == '*' || c == '?' || c == '[' || c == ']'
    || c == '~' || c == '{' || c == '}' || c == '!'
  }

  predicate OpChar(c: char) {
    c == '&' || c == '|' || c == ';' || c == '<' || c == '>' || c == '(' || c == ')' || c == '\n'
  }

  predicate Operator(s: string) {
    || (|s| == 1 && OpChar(s[0]))
    || s == "&&" || s == "||" || s == ";;" || s == "<<" || s == ">>" || s == "<&" || s == ">&"
    || s == "<>" || s == ">|" || s == "<<-"
  }

  predicate Gap(c: char) { c == ' ' || c == '\t' }

  /** The next character begins a token. */
  function Start(tokens: seq<Token>, c: char): Scan {
    if Gap(c) then Scan(tokens, Blank)
    else if c == '\'' then Scan(tokens, Single(""))
    else if c == '\\' then Scan(tokens, Escape(""))
    else if OpChar(c) then Scan(tokens, InOp([c]))
    else if Special(c) || c == '#' then Scan(tokens, Bad)
    else Scan(tokens, InWord([c]))
  }

  function Step(s: Scan, c: char): Scan {
    match s.mode
    case Blank => Start(s.tokens, c)
    case InWord(w) =>
      if c == '\'' then s.(mode := Single(w))
      else if c == '\\' then s.(mode := Escape(w))
      else if Gap(c) || OpChar(c) then Start(s.tokens + [Word(w)], c)
      else if Special(c) then s.(mode := Bad)
      else s.(mode := InWord(w + [c]))
    case Single(w) => s.(mode := if c == '\'' then InWord(w) else Single(w + [c]))
    case Escape(w) => s.(mode := if c == '\n' then Bad else InWord(w + [c]))
    case InOp(o) => if Operator(o + [c]) then s.(mode := InOp(o + [c])) else Start(s.tokens + [Op(o)], c)
    case Bad => s
  }

  function Run(s: Scan, text: string): Scan
    decreases |text|
  {
    if text == "" then s else Run(Step(s, text[0]), text[1..])
  }

  /** Text may end here. */
  predicate Complete(m: Mode) { m.Blank? || m.InWord? || m.InOp? }

  /** The token it then ends in. */
  function Last(m: Mode): seq<Token> {
    if m.InWord? then [Word(m.word)] else if m.InOp? then [Op(m.op)] else []
  }

  function Read(s: Scan): Option<seq<Token>> {
    if Complete(s.mode) then Some(s.tokens + Last(s.mode)) else None
  }

  /** The words (quotes removed) and operators of a command, if it is complete and
      uses nothing outside the model. */
  function Tokens(text: string): Option<seq<Token>> {
    Read(Run(Scan([], Blank), text))
  }

  // ------------------------------------------------------------ the program

  /** strings.ReplaceAll(s, "'", `'\''`). */
  function Escaped(s: string): string {
    if s == "" then "" else (if s[0] == '\'' then "'\\''" else [s[0]]) + Escaped(s[1..])
  }

  function Quote(s: string): string {
    "'" + Escaped(s) + "'"
  }

  function Gapped(s: string): string { s + " " }

  /** Each word followed by a space. */
  function Spaced(ws: seq<string>): string {
    if ws == [] then "" else Gapped(ws[0]) + Spaced(ws[1..])
  }

  /** bash -lc ... */
  function LoginShell(cmd: string): string {
    Spaced(["bash", "-lc"]) + Quote(cmd)
  }

  const CD := ["cd", "/tmp"]
  const PRINTF := ["printf", "%s"]
  const DECODE := ["base64", "-d"]
  const SEND_FLAGS := ["-p", "--safe-mode", "--allowedTools", "Read,SendMessage", "--permission-mode", "acceptEdits"]
  const LIST_FLAGS := ["-p", "--safe-mode", "--allowedTools", "ListAgents", "--permission-mode", "acceptEdits"]
  const REMOVE := ["rm", "-f"]

  /** cd /tmp && printf %s ENC | base64 -d > TMP && BIN FLAGS PROMPT; rm -f TMP
      enc: the text in base64; bin: how the CLI is called, put in as it stands. */
  function SendInner(bin: string, enc: string, tmp: string, prompt: string): string {
    Spaced(CD) + Gapped("&&") + Spaced(PRINTF) + Gapped(Quote(enc)) + Gapped("|") + Spaced(DECODE)
      + Gapped(">") + Gapped(Quote(tmp)) + Gapped("&&")
      + Gapped(bin) + Spaced(SEND_FLAGS) + Quote(prompt) + Gapped(";") + Spaced(REMOVE) + Quote(tmp)
  }

  function ClaudeSendCmd(bin: string, enc: string, tmp: string, prompt: string): string {
    LoginShell(SendInner(bin, enc, tmp, prompt))
  }

  /** cd /tmp && BIN FLAGS PROMPT */
  function ListInner(bin: string, prompt: string): string {
    Spaced(CD) + Gapped("&&") + Gapped(bin) + Spaced(LIST_FLAGS) + Quote(prompt)
  }

  function ClaudeListCmd(bin: string, prompt: string): string {
    LoginShell(ListInner(bin, prompt))
  }

  // ------------------------------------------------------------ scanning lemmas

  lemma {:induction false} RunConcat(s: Scan, a: string, b: string)
    ensures Run(s, a + b) == Run(Run(s, a), b)
    decreases |a|
  {
    if a == "" {
      assert a + b == b;
    } else {
      RunConcat(Step(s, a[0]), a[1..], b);
      assert (a + b)[1..] == a[1..] + b;
    }
  }

  /** Tokens already read do not matter. */
  lemma {:induction false} RunAfter(front: seq<Token>, s: Scan, text: string)
    ensures Run(Scan(front + s.tokens, s.mode), text)
         == Scan(front + Run(s, text).tokens, Run(s, text).mode)
    decreases |text|
  {
    if text != "" {
      StepAfter(front, s, text[0]);
      RunAfter(front, Step(s, text[0]), text[1..]);
    }
  }

  lemma StepAfter(front: seq<Token>, s: Scan, c: char)
    ensures Step(Scan(front + s.tokens, s.mode), c) == Scan(front + Step(s, c).tokens, Step(s, c).mode)
  {
    match s.mode
    case InWord(w) => assert front + (s.tokens + [Word(w)]) == front + s.tokens + [Word(w)];
    case InOp(o) => assert front + (s.tokens + [Op(o)]) == front + s.tokens + [Op(o)];
    case Blank =>
    case Single(_) =>
    case Escape(_) =>
    case Bad =>
  }

  lemma {:induction false} EscapedScan(tokens: seq<Token>, w: string, s: string)
    ensures Run(Scan(tokens, Single(w)), Escaped(s)) == Scan(tokens, Single(w + s))
    decreases |s|
  {
    if s == "" {
      assert w + s == w;
    } else {
      var c := s[0];
      var st := Scan(tokens, Single(w));
      var head := if c == '\'' then "'\\''" else [c];
      RunConcat(st, head, Escaped(s[1..]));
      if c == '\'' { QuoteMark(tokens, w); } else { RunOne(st, c); }
      EscapedScan(tokens, w + [c], s[1..]);
      assert w + [c] + s[1..] == w + s;
    }
  }

  lemma RunOne(s: Scan, c: char)
    ensures Run(s, [c]) == Step(s, c)
  {
    assert [c][1..] == "";
  }

  /** '\'' inside single quotes: out, an escaped quote, in again. */
  lemma QuoteMark(tokens: seq<Token>, w: string)
    ensures Run(Scan(tokens, Single(w)), "'\\''") == Scan(tokens, Single(w + "'"))
  {
    var s := Scan(tokens, Single(w));
    RunConcat(s, "'", "\\''");
    RunOne(s, '\'');
    var s1 := Step(s, '\'');
    RunConcat(s1, "\\", "''");
    RunOne(s1, '\\');
    var s2 := Step(s1, '\\');
    RunConcat(s2, "'", "'");
    RunOne(s2, '\'');
    RunOne(Step(s2, '\''), '\'');
    assert "'" + "\\''" == "'\\''" && "\\" + "''" == "\\''" && "'" + "'" == "''";
  }

  /** A quoted string between tokens is read back as one word, itself. */
  lemma QuoteScan(tokens: seq<Token>, s: string)
    ensures Run(Scan(tokens, Blank), Quote(s)) == Scan(tokens, InWord(s))
  {
    var st := Scan(tokens, Blank);
    RunConcat(st, "'" + Escaped(s), "'");
    RunConcat(st, "'", Escaped(s));
    RunOne(st, '\'');
    EscapedScan(tokens, "", s);
    assert "" + s == s;
    RunOne(Scan(tokens, Single(s)), '\'');
  }

  /** The round trip of shellQuote, for every string. */
  lemma QuoteRoundTrip(s: string)
    ensures Tokens(Quote(s)) == Some([Word(s)])
  {
    QuoteScan([], s);
    Ended([], Quote(s), s);
    assert [] + [Word(s)] == [Word(s)];
  }

  /** Characters that are themselves in a word. */
  predicate Plain(c: char) {
    !Gap(c) && !OpChar(c) && !Special(c) && c != '\'' && c != '\\' && c != '#'
  }

  predicate PlainWord(w: string) {
    w != "" && forall i | 0 <= i < |w| :: Plain(w[i])
  }

  lemma {:induction false} InPlainWord(tokens: seq<Token>, v: string, w: string)
    requires forall i | 0 <= i < |w| :: Plain(w[i])
    ensures Run(Scan(tokens, InWord(v)), w) == Scan(tokens, InWord(v + w))
    decreases |w|
  {
    if w == "" {
      assert v + w == v;
    } else {
      InPlainWord(tokens, v + [w[0]], w[1..]);
      assert v + [w[0]] + w[1..] == v + w;
    }
  }

  lemma PlainScan(tokens: seq<Token>, w: string)
    requires PlainWord(w)
    ensures Run(Scan(tokens, Blank), w) == Scan(tokens, InWord(w))
  {
    InPlainWord(tokens, [w[0]], w[1..]);
    assert [w[0]] + w[1..] == w;
  }

  function Words(ws: seq<string>): seq<Token> {
    if ws == [] then [] else [Word(ws[0])] + Words(ws[1..])
  }

  lemma {:induction false} SpacedScan(tokens: seq<Token>, ws: seq<string>)
    requires forall i | 0 <= i < |ws| :: PlainWord(ws[i])
    ensures Run(Scan(tokens, Blank), Spaced(ws)) == Scan(tokens + Words(ws), Blank)
    decreases |ws|
  {
    if ws == [] {
      assert tokens + [] == tokens;
    } else {
      var st := Scan(tokens, Blank);
      RunConcat(st, Gapped(ws[0]), Spaced(ws[1..]));
      RunConcat(st, ws[0], " ");
      PlainScan(tokens, ws[0]);
      RunOne(Scan(tokens, InWord(ws[0])), ' ');
      SpacedScan(tokens + [Word(ws[0])], ws[1..]);
      assert tokens + [Word(ws[0])] + Words(ws[1..]) == tokens + Words(ws);
    }
  }

  /** An operator and a space, at any place where a token may end. */
  lemma OpScan(tokens: seq<Token>, m: Mode, op: string)
    requires Complete(m) && !m.InOp? && Joint(op)
    ensures Run(Scan(tokens, m), Gapped(op)) == Scan(tokens + Last(m) + [Op(op)], Blank)
  {
    var s := Scan(tokens, m);
    assert tokens + [] == tokens;
    RunConcat(s, op, " ");
    var s1 := Step(s, op[0]);
    assert s1 == Scan(tokens + Last(m), InOp([op[0]]));
    if op == "&&" {
      RunConcat(s, "&", "&");
      assert "&" + "&" == op;
      RunOne(s, '&');
      RunOne(s1, '&');
    } else {
      assert op == [op[0]];
      RunOne(s, op[0]);
    }
    RunOne(Run(s, op), ' ');
    GapEndsOp(op);
  }

  /** A space where a token may end. */
  lemma GapScan(tokens: seq<Token>, m: Mode)
    requires Complete(m)
    ensures Run(Scan(tokens, m), " ") == Scan(tokens + Last(m), Blank)
  {
    RunOne(Scan(tokens, m), ' ');
    assert tokens + [] == tokens;
    if m.InOp? { GapEndsOp(m.op); }
  }

  lemma GapEndsOp(op: string)
    ensures !Operator(op + [' '])
  {
    var x := op + [' '];
    assert x[|x| - 1] == ' ';
  }

  /** Text that is complete by itself means the same after other tokens. */
  lemma CompleteScan(tokens: seq<Token>, text: string)
    requires Tokens(text).Some?
    ensures Run(Scan(tokens, Blank), text + " ") == Scan(tokens + Tokens(text).value, Blank)
  {
    var s := Run(Scan([], Blank), text);
    RunConcat(Scan(tokens, Blank), text, " ");
    RunAfter(tokens, Scan([], Blank), text);
    assert tokens + [] == tokens;
    GapScan(tokens + s.tokens, s.mode);
    assert tokens + s.tokens + Last(s.mode) == tokens + (s.tokens + Last(s.mode));
  }

  /** A text that ends inside a word. */
  lemma Ended(tokens: seq<Token>, text: string, w: string)
    requires Run(Scan([], Blank), text) == Scan(tokens, InWord(w))
    ensures Tokens(text) == Some(tokens + [Word(w)])
  {
  }

  /** A binary that is one plain word means itself. */
  lemma PlainTokens(w: string)
    requires PlainWord(w)
    ensures Tokens(w) == Some([Word(w)])
  {
    PlainScan([], w);
    Ended([], w, w);
    assert [] + [Word(w)] == [Word(w)];
  }

  /** The binary where none is configured. */
  const DEFAULT_BIN := "claude"

  // -------------------------------------------------------------- the commands

  /** Up to its last space, front reads as these tokens. */
  predicate Reads(front: string, tokens: seq<Token>) {
    Run(Scan([], Blank), front) == Scan(tokens, Blank)
  }

  predicate AllPlain(ws: seq<string>) {
    forall i | 0 <= i < |ws| :: PlainWord(ws[i])
  }

  predicate Joint(op: string) { op == "&&" || op == "|" || op == ">" || op == ";" }

  lemma FirstWords(ws: seq<string>)
    requires AllPlain(ws)
    ensures Reads(Spaced(ws), Words(ws))
  {
    SpacedScan([], ws);
    assert [] + Words(ws) == Words(ws);
  }

  lemma ThenWords(front: string, tokens: seq<Token>, ws: seq<string>)
    requires Reads(front, tokens) && AllPlain(ws)
    ensures Reads(front + Spaced(ws), tokens + Words(ws))
  {
    RunConcat(Scan([], Blank), front, Spaced(ws));
    SpacedScan(tokens, ws);
  }

  lemma ThenOp(front: string, tokens: seq<Token>, op: string)
    requires Reads(front, tokens) && Joint(op)
    ensures Reads(front + Gapped(op), tokens + [Op(op)])
  {
    RunConcat(Scan([], Blank), front, Gapped(op));
    OpScan(tokens, Blank, op);
    assert tokens + [] == tokens;
  }

  lemma ThenQuote(front: string, tokens: seq<Token>, s: string)
    requires Reads(front, tokens)
    ensures Reads(front + Gapped(Quote(s)), tokens + [Word(s)])
  {
    RunConcat(Scan([], Blank), front, Gapped(Quote(s)));
    RunConcat(Scan(tokens, Blank), Quote(s), " ");
    QuoteScan(tokens, s);
    GapScan(tokens, InWord(s));
  }

  lemma ThenQuoteOp(front: string, tokens: seq<Token>, s: string, op: string)
    requires Reads(front, tokens) && Joint(op)
    ensures Reads(front + Quote(s) + Gapped(op), tokens + [Word(s)] + [Op(op)])
  {
    RunConcat(Scan([], Blank), front + Quote(s), Gapped(op));
    RunConcat(Scan([], Blank), front, Quote(s));
    QuoteScan(tokens, s);
    OpScan(tokens, InWord(s), op);
  }

  lemma ThenText(front: string, tokens: seq<Token>, text: string)
    requires Reads(front, tokens) && Tokens(text).Some?
    ensures Reads(front + Gapped(text), tokens + Tokens(text).value)
  {
    RunConcat(Scan([], Blank), front, Gapped(text));
    CompleteScan(tokens, text);
  }

  /** A command that ends in a quoted word. */
  lemma ThenEnd(front: string, tokens: seq<Token>, s: string)
    requires Reads(front, tokens)
    ensures Tokens(front + Quote(s)) == Some(tokens + [Word(s)])
  {
    RunConcat(Scan([], Blank), front, Quote(s));
    QuoteScan(tokens, s);
    Ended(tokens, front + Quote(s), s);
  }

  /** The outer shell reads loginShell(cmd) as bash, -lc and cmd, whatever cmd is. */
  lemma LoginShellWords(cmd: string)
    ensures Tokens(LoginShell(cmd)) == Some([Word("bash"), Word("-lc"), Word(cmd)])
  {
    var ws := ["bash", "-lc"];
    FirstWords(ws);
    WordsOfTwo(ws);
    ThenEnd(Spaced(ws), Words(ws), cmd);
    assert Words(ws) + [Word(cmd)] == [Word("bash"), Word("-lc"), Word(cmd)];
  }

  lemma WordsOfTwo(ws: seq<string>)
    requires |ws| == 2
    ensures Words(ws) == [Word(ws[0]), Word(ws[1])]
  {
    assert ws[1..] == [ws[1]] && [ws[1]][1..] == [];
    assert Words([ws[1]]) == [Word(ws[1])] + [];
    assert Words(ws) == [Word(ws[0])] + Words([ws[1]]);
  }

  /** Letters, digits and the punctuation of the fixed words. */
  predicate Tame(c: char) {
    || 'a' <= c <= 'z' || 'A' <= c <= 'Z' || '0' <= c <= '9' || c == '-' || c == '/' || c == ',' || c == '%'
  }

  lemma TamePlain(ws: seq<string>)
    requires forall i | 0 <= i < |ws| :: ws[i] != "" && forall j | 0 <= j < |ws[i]| :: Tame(ws[i][j])
    ensures AllPlain(ws)
  {}

  lemma FixedPlain()
    ensures AllPlain(CD) && AllPlain(PRINTF) && AllPlain(DECODE) && AllPlain(REMOVE)
    ensures AllPlain(SEND_FLAGS) && AllPlain(LIST_FLAGS)
  {
    TamePlain(CD);
    TamePlain(PRINTF);
    TamePlain(DECODE);
    TamePlain(REMOVE);
    TamePlain(SEND_FLAGS);
    TamePlain(LIST_FLAGS);
  }

  /** cd and printf TEXT | base64 -d > PATH && */
  lemma DecodeHalf(cd: seq<string>, printf: seq<string>, decode: seq<string>, enc: string, tmp: string)
    requires AllPlain(cd) && AllPlain(printf) && AllPlain(decode)
    ensures Reads(
      Spaced(cd) + Gapped("&&") + Spaced(printf) + Gapped(Quote(enc)) + Gapped("|") + Spaced(decode)
        + Gapped(">") + Gapped(Quote(tmp)) + Gapped("&&"),
      Words(cd) + [Op("&&")] + Words(printf) + [Word(enc)] + [Op("|")] + Words(decode)
        + [Op(">")] + [Word(tmp)] + [Op("&&")])
  {
    FirstWords(cd);
    var f0, t0 := Spaced(cd), Words(cd);
    ThenOp(f0, t0, "&&");
    var f1, t1 := f0 + Gapped("&&"), t0 + [Op("&&")];
    ThenWords(f1, t1, printf);
    var f2, t2 := f1 + Spaced(printf), t1 + Words(printf);
    ThenQuote(f2, t2, enc);
    var f3, t3 := f2 + Gapped(Quote(enc)), t2 + [Word(enc)];
    ThenOp(f3, t3, "|");
    var f4, t4 := f3 + Gapped("|"), t3 + [Op("|")];
    ThenWords(f4, t4, decode);
    var f5, t5 := f4 + Spaced(decode), t4 + Words(decode);
    ThenOp(f5, t5, ">");
    var f6, t6 := f5 + Gapped(">"), t5 + [Op(">")];
    ThenQuote(f6, t6, tmp);
    ThenOp(f6 + Gapped(Quote(tmp)), t6 + [Word(tmp)], "&&");
  }

  /** BIN FLAGS PROMPT; rm PATH */
  lemma CallHalf(front: string, tokens: seq<Token>, bin: string, flags: seq<string>, prompt: string,
                 remove: seq<string>, tmp: string)
    requires Reads(front, tokens) && Tokens(bin).Some? && AllPlain(flags) && AllPlain(remove)
    ensures Tokens(front + Gapped(bin) + Spaced(flags) + Quote(prompt) + Gapped(";") + Spaced(remove) + Quote(tmp)) == Some(
      tokens + Tokens(bin).value + Words(flags) + [Word(prompt)] + [Op(";")] + Words(remove) + [Word(tmp)])
  {
    ThenText(front, tokens, bin);
    var f1, t1 := front + Gapped(bin), tokens + Tokens(bin).value;
    ThenWords(f1, t1, flags);
    var f2, t2 := f1 + Spaced(flags), t1 + Words(flags);
    ThenQuoteOp(f2, t2, prompt, ";");
    var f3, t3 := f2 + Quote(prompt) + Gapped(";"), t2 + [Word(prompt)] + [Op(";")];
    ThenWords(f3, t3, remove);
    ThenEnd(f3 + Spaced(remove), t3 + Words(remove), tmp);
  }

  /** The login shell's own reading of the send command: whatever the text, the path
      and the prompt are, each comes back unchanged as one word in its place, and so
      does whatever bin means by itself. */
  lemma SendInnerWords(bin: string, enc: string, tmp: string, prompt: string)
    requires Tokens(bin).Some?
    ensures Tokens(SendInner(bin, enc, tmp, prompt)) == Some(
      Words(CD) + [Op("&&")] + Words(PRINTF) + [Word(enc)] + [Op("|")] + Words(DECODE) + [Op(">")] + [Word(tmp)] + [Op("&&")]
        + Tokens(bin).value + Words(SEND_FLAGS) + [Word(prompt)] + [Op(";")] + Words(REMOVE) + [Word(tmp)])
  {
    FixedPlain();
    DecodeHalf(CD, PRINTF, DECODE, enc, tmp);
    CallHalf(
      Spaced(CD) + Gapped("&&") + Spaced(PRINTF) + Gapped(Quote(enc)) + Gapped("|") + Spaced(DECODE)
        + Gapped(">") + Gapped(Quote(tmp)) + Gapped("&&"),
      Words(CD) + [Op("&&")] + Words(PRINTF) + [Word(enc)] + [Op("|")] + Words(DECODE)
        + [Op(">")] + [Word(tmp)] + [Op("&&")],
      bin, SEND_FLAGS, prompt, REMOVE, tmp);
  }

  /** The same of the list command. */
  lemma ListInnerWords(bin: string, prompt: string)
    requires Tokens(bin).Some?
    ensures Tokens(ListInner(bin, prompt)) == Some(
      Words(CD) + [Op("&&")] + Tokens(bin).value + Words(LIST_FLAGS) + [Word(prompt)])
  {
    FixedPlain();
    FirstWords(CD);
    var f0, t0 := Spaced(CD) + Gapped("&&"), Words(CD) + [Op("&&")];
    ThenOp(Spaced(CD), Words(CD), "&&");
    ThenText(f0, t0, bin);
    var f1, t1 := f0 + Gapped(bin), t0 + Tokens(bin).value;
    ThenWords(f1, t1, LIST_FLAGS);
    ThenEnd(f1 + Spaced(LIST_FLAGS), t1 + Words(LIST_FLAGS), prompt);
  }

  /** What the outer shell hands on, and what the login shell reads in it. */
  ghost predicate ReadTwice(cmd: string, inner: seq<Token>) {
    var outer := Tokens(cmd);
    && outer.Some? && |outer.value| == 3 && outer.value[..2] == [Word("bash"), Word("-lc")]
    && Tokens(outer.value[2].text) == Some(inner)
  }

  lemma LoginReadTwice(cmd: string, inner: seq<Token>)
    requires Tokens(cmd) == Some(inner)
    ensures ReadTwice(LoginShell(cmd), inner)
  {
    LoginShellWords(cmd);
  }

  /** Both readings of a delivery, one after the other. */
  lemma SendReadTwice(bin: string, enc: string, tmp: string, prompt: string)
    requires Tokens(bin).Some?
    ensures ReadTwice(ClaudeSendCmd(bin, enc, tmp, prompt),
      Words(CD) + [Op("&&")] + Words(PRINTF) + [Word(enc)] + [Op("|")] + Words(DECODE) + [Op(">")] + [Word(tmp)] + [Op("&&")]
        + Tokens(bin).value + Words(SEND_FLAGS) + [Word(prompt)] + [Op(";")] + Words(REMOVE) + [Word(tmp)])
  {
    SendInnerWords(bin, enc, tmp, prompt);
    LoginReadTwice(SendInner(bin, enc, tmp, prompt), Tokens(SendInner(bin, enc, tmp, prompt)).value);
  }

  /** And of a listing. */
  lemma ListReadTwice(bin: string, prompt: string)
    requires Tokens(bin).Some?
    ensures ReadTwice(ClaudeListCmd(bin, prompt),
      Words(CD) + [Op("&&")] + Tokens(bin).value + Words(LIST_FLAGS) + [Word(prompt)])
  {
    ListInnerWords(bin, prompt);
    LoginReadTwice(ListInner(bin, prompt), Tokens(ListInner(bin, prompt)).value);
  }

  /** A binary that is one plain word is read as itself. */
  lemma PlainReadTwice(bin: string, enc: string, tmp: string, prompt: string)
    requires PlainWord(bin)
    ensures ReadTwice(ClaudeSendCmd(bin, enc, tmp, prompt),
      Words(CD) + [Op("&&")] + Words(PRINTF) + [Word(enc)] + [Op("|")] + Words(DECODE) + [Op(">")] + [Word(tmp)] + [Op("&&")]
        + [Word(bin)] + Words(SEND_FLAGS) + [Word(prompt)] + [Op(";")] + Words(REMOVE) + [Word(tmp)])
    ensures ReadTwice(ClaudeListCmd(bin, prompt),
      Words(CD) + [Op("&&")] + [Word(bin)] + Words(LIST_FLAGS) + [Word(prompt)])
  {
    PlainTokens(bin);
    SendReadTwice(bin, enc, tmp, prompt);
    ListReadTwice(bin, prompt);
  }

  /** So is the one used on a host that configures none. */
  lemma DefaultReadTwice(enc: string, tmp: string, prompt: string)
    ensures ReadTwice(ClaudeSendCmd(DEFAULT_BIN, enc, tmp, prompt),
      Words(CD) + [Op("&&")] + Words(PRINTF) + [Word(enc)] + [Op("|")] + Words(DECODE) + [Op(">")] + [Word(tmp)] + [Op("&&")]
        + [Word(DEFAULT_BIN)] + Words(SEND_FLAGS) + [Word(prompt)] + [Op(";")] + Words(REMOVE) + [Word(tmp)])
    ensures ReadTwice(ClaudeListCmd(DEFAULT_BIN, prompt),
      Words(CD) + [Op("&&")] + [Word(DEFAULT_BIN)] + Words(LIST_FLAGS) + [Word(prompt)])
  {
    TamePlain([DEFAULT_BIN]);
    assert PlainWord([DEFAULT_BIN][0]);
    PlainReadTwice(DEFAULT_BIN, enc, tmp, prompt);
  }

  /** The words of the two commands that do not depend on anything. */
  lemma FixedWords()
    ensures Words(CD) == [Word("cd"), Word("/tmp")] && Words(PRINTF) == [Word("printf"), Word("%s")]
    ensures Words(DECODE) == [Word("base64"), Word("-d")] && Words(REMOVE) == [Word("rm"), Word("-f")]
    ensures Words(SEND_FLAGS) == [
      Word("-p"), Word("--safe-mode"), Word("--allowedTools"), Word("Read,SendMessage"),
      Word("--permission-mode"), Word("acceptEdits")]
    ensures Words(LIST_FLAGS) == [
      Word("-p"), Word("--safe-mode"), Word("--allowedTools"), Word("ListAgents"),
      Word("--permission-mode"), Word("acceptEdits")]
  {
    WordsAt(CD);
    WordsAt(PRINTF);
    WordsAt(DECODE);
    WordsAt(REMOVE);
    WordsAt(SEND_FLAGS);
    WordsAt(LIST_FLAGS);
  }

  lemma {:induction false} WordsAt(ws: seq<string>)
    ensures |Words(ws)| == |ws| && forall i | 0 <= i < |ws| :: Words(ws)[i] == Word(ws[i])
  {
    if ws != [] { WordsAt(ws[1..]); }
  }
}
