/**
 * Token recognition of the POSIX shell (IEEE Std 1003.1-2017, Shell Command Language, sections 2.2.1,
 * 2.2.2, 2.2.3, 2.3 and 2.10.1), one character at a time. Input that would go on to an expansion, a
 * comment or a pathname pattern is refused, so a token sequence is what the shell acts upon.
 */
module ShellTokens {
  import opened Prelude
  import opened Decimal

  datatype Token = Word(text: string, quoted: bool) | Op(op: string) | IoNumber(digits: string)

  /** Where the scanner is, with the text of the token under construction. */
  datatype State =
    | Between
    | InWord(word: string, quoted: bool)
    | InOp(op: string)
    | Single(word: string)
    | Double(word: string)
    | Backslash(prev: State)
    | DoubleBackslash(word: string)

  datatype Move = Refused | Go(st: State, tokens: seq<Token>)

  /** Whether `c` makes a longer operator of `op`: `&&`, `||`, `;;`, `<<`, `<&`, `<>`, `>>`, `>&`, `>|` and `<<-`. */
  predicate Extends(op: string, c: char) {
    if |op| == 1 then
      || (op[0] == '&' && c == '&')
      || (op[0] == '|' && c == '|')
      || (op[0] == ';' && c == ';')
      || (op[0] == '<' && (c == '<' || c == '&' || c == '>'))
      || (op[0] == '>' && (c == '>' || c == '&' || c == '|'))
    else |op| == 2 && op[0] == '<' && op[1] == '<' && c == '-'
  }

  predicate IsBlank(c: char) { c == ' ' || c == '\t' }

  predicate StartsOp(c: char) {
    c == '&' || c == '(' || c == ')' || c == ';' || c == '|' || c == '<' || c == '>' || c == '\n'
  }

  /** Unquoted, these lead to parameter, command, arithmetic, tilde or pathname expansion. */
  predicate Expands(c: char) { c == '$' || c == '`' || c == '*' || c == '?' || c == '[' || c == '~' }

  /** The token a word becomes when the character `c` ends it. */
  function EndWord(word: string, quoted: bool, c: char): Token {
    if !quoted && (c == '<' || c == '>') && forall d <- word :: IsDigit(d) then IoNumber(word) else Word(word, quoted)
  }

  /** A character met outside quotes, with `word` the text so far and `st` the state to fall back to. */
  function Unquoted(st: State, word: string, quoted: bool, c: char): Move {
    if c == '\'' then Go(Single(word), [])
    else if c == '\"' then Go(Double(word), [])
    else if c == '\\' then Go(Backslash(st), [])
    else if Expands(c) then Refused
    else Go(InWord(word + [c], quoted), [])
  }

  function FromBetween(c: char): Move {
    if IsBlank(c) then Go(Between, [])
    else if StartsOp(c) then Go(InOp([c]), [])
    else if c == '#' then Refused
    else Unquoted(Between, "", false, c)
  }

  function After(tokens: seq<Token>, m: Move): Move {
    match m
    case Refused => Refused
    case Go(st, more) => Go(st, tokens + more)
  }

  /** The character after a backslash stands for itself. */
  function Escaped(prev: State, c: char): Move {
    match prev
    case InWord(word, _) => Go(InWord(word + [c], true), [])
    case InOp(op) => Go(InWord([c], true), [Op(op)])
    case _ => Go(InWord([c], true), [])
  }

  function Step(st: State, c: char): Move {
    if c == '\0' then Refused
    else
      match st
      case Between => FromBetween(c)
      case InWord(word, quoted) =>
        if IsBlank(c) then Go(Between, [Word(word, quoted)])
        else if StartsOp(c) then Go(InOp([c]), [EndWord(word, quoted, c)])
        else Unquoted(st, word, quoted, c)
      case InOp(op) =>
        if Extends(op, c) then Go(InOp(op + [c]), [])
        else if c == '\\' then Go(Backslash(st), [])
        else After([Op(op)], FromBetween(c))
      case Single(word) =>
        if c == '\'' then Go(InWord(word, true), []) else Go(Single(word + [c]), [])
      case Double(word) =>
        if c == '\"' then Go(InWord(word, true), [])
        else if c == '\\' then Go(DoubleBackslash(word), [])
        else if c == '$' || c == '`' then Refused
        else Go(Double(word + [c]), [])
      case Backslash(prev) =>
        if c == '\n' then Go(prev, []) else Escaped(prev, c)
      case DoubleBackslash(word) =>
        if c == '\n' then Go(Double(word), [])
        else if c == '$' || c == '`' || c == '\"' || c == '\\' then Go(Double(word + [c]), [])
        else Go(Double(word + ['\\', c]), [])
  }

  /** The tokens completed by the end of the input. */
  function Finish(st: State): Option<seq<Token>> {
    match st
    case Between => Some([])
    case InWord(word, quoted) => Some([Word(word, quoted)])
    case InOp(op) => Some([Op(op)])
    case _ => None
  }

  function Run(s: string, st: State): Move {
    if s == "" then Go(st, [])
    else
      match Step(st, s[0])
      case Refused => Refused
      case Go(st', tokens) => After(tokens, Run(s[1..], st'))
  }

  function Tokens(s: string): Option<seq<Token>> {
    match Run(s, Between)
    case Refused => None
    case Go(st, tokens) => if Finish(st).None? then None else Some(tokens + Finish(st).value)
  }

  /** Scanning on from where a first scan got to. */
  function Then(m: Move, s: string): Move {
    match m
    case Refused => Refused
    case Go(st, tokens) => After(tokens, Run(s, st))
  }

  lemma {:induction false} RunConcat(s: string, t: string, st: State)
    ensures Run(s + t, st) == Then(Run(s, st), t)
  {
    if s == "" {
      assert s + t == t;
    } else {
      assert (s + t)[1..] == s[1..] + t;
      var m := Step(st, s[0]);
      if m.Go? {
        RunConcat(s[1..], t, m.st);
        var rest := Run(s[1..], m.st);
        if rest.Go? && Run(t, rest.st).Go? {
          assert m.tokens + (rest.tokens + Run(t, rest.st).tokens) == (m.tokens + rest.tokens) + Run(t, rest.st).tokens;
        }
      }
    }
  }

  lemma RunEmpty(st: State)
    ensures Run("", st) == Go(st, [])
  {
  }

  lemma RunOne(c: char, st: State)
    ensures Run([c], st) == Step(st, c)
  {
    var m := Step(st, c);
    assert [c][1..] == "";
    if m.Go? { assert m.tokens + [] == m.tokens; }
  }

  lemma RunNext(c: char, s: string, st: State)
    ensures Run([c] + s, st) == Then(Step(st, c), s)
  {
    assert ([c] + s)[1..] == s;
  }

  /** A character that stands for itself outside quotes. */
  predicate PlainChar(c: char) {
    c != '\0' && c != '#' && !IsBlank(c) && !StartsOp(c) && !Expands(c) && c != '\'' && c != '\"' && c != '\\'
  }

  predicate Plain(s: string) { forall c <- s :: PlainChar(c) }

  /** Letters, digits and a few marks: enough for every fixed word of a command. */
  predicate Wordy(c: char) { 'a' <= c <= 'z' || 'A' <= c <= 'Z' || '-' <= c <= ':' || c == '=' || c == '_' }

  lemma WordyIsPlain(s: string)
    requires forall i :: 0 <= i < |s| ==> Wordy(s[i])
    ensures Plain(s)
  {
  }

  lemma PlainStep(c: char, word: string, quoted: bool)
    requires PlainChar(c)
    ensures Step(InWord(word, quoted), c) == Go(InWord(word + [c], quoted), [])
  {
  }

  lemma {:induction false} RunPlain(s: string, word: string, quoted: bool)
    requires Plain(s)
    ensures Run(s, InWord(word, quoted)) == Go(InWord(word + s, quoted), [])
  {
    hide Step, PlainChar, Run;
    if s == "" {
      RunEmpty(InWord(word, quoted));
      assert word + s == word;
    } else {
      assert s[0] in s && Plain(s[1..]);
      PlainStep(s[0], word, quoted);
      RunNext(s[0], s[1..], InWord(word, quoted));
      assert [s[0]] + s[1..] == s;
      RunPlain(s[1..], word + [s[0]], quoted);
      assert word + [s[0]] + s[1..] == word + s;
    }
  }

  lemma RunPlainWord(s: string)
    requires Plain(s) && s != ""
    ensures Run(s, Between) == Go(InWord(s, false), [])
  {
    assert Plain(s[1..]) && s[0] in s;
    RunPlain(s[1..], [s[0]], false);
    assert Step(Between, s[0]) == Go(InWord([s[0]], false), []) by { assert "" + [s[0]] == [s[0]]; }
    assert [s[0]] + s[1..] == s;
  }
}
