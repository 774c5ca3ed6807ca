/** The two ways of single-quoting an argument, and command lines made of plain and quoted arguments. */
module ShellQuoting {
  import opened Prelude
  import opened ShellTokens

  /** How an embedded single quote is spliced in: `'\''` or `'"'"'`. */
  datatype Style = ByBackslash | ByDoubleQuotes

  function Splice(style: Style): string {
    match style
    case ByBackslash => "'\\''"
    case ByDoubleQuotes => "'\"'\"'"
  }

  function ReplaceQuotes(s: string, style: Style): string {
    if s == "" then ""
    else (if s[0] == '\'' then Splice(style) else [s[0]]) + ReplaceQuotes(s[1..], style)
  }

  /** shellQuote. */
  function Quote(s: string, style: Style): string { "'" + ReplaceQuotes(s, style) + "'" }

  predicate NulFree(s: string) { '\0' !in s }

  /** A splice closes the quotes, adds one quote character and opens the quotes again. */
  lemma RunSplice(style: Style, word: string)
    ensures Run(Splice(style), Single(word)) == Go(Single(word + "'"), [])
  {
    if style.ByBackslash? { RunBackslashSplice(word); } else { RunDoubleQuotesSplice(word); }
  }

  lemma RunBackslashSplice(word: string)
    ensures Run("'\\''", Single(word)) == Go(Single(word + "'"), [])
  {
    RunNext('\'', "\\''", Single(word));
    RunNext('\\', "''", InWord(word, true));
    RunNext('\'', "'", Backslash(InWord(word, true)));
    RunOne('\'', InWord(word + "'", true));
  }

  lemma RunDoubleQuotesSplice(word: string)
    ensures Run("'\"'\"'", Single(word)) == Go(Single(word + "'"), [])
  {
    RunNext('\'', "\"'\"'", Single(word));
    RunNext('\"', "'\"'", InWord(word, true));
    RunNext('\'', "\"'", Double(word));
    RunNext('\"', "'", Double(word + "'"));
    RunOne('\'', InWord(word + "'", true));
  }

  /** Between the quotes the scanner collects exactly the original text. */
  lemma {:induction false} RunReplaced(s: string, style: Style, word: string)
    ensures Run(ReplaceQuotes(s, style), Single(word)) == if NulFree(s) then Go(Single(word + s), []) else Refused
  {
    hide Run;
    if s == "" {
      RunEmpty(Single(word));
      assert word + s == word;
    } else {
      var head := if s[0] == '\'' then Splice(style) else [s[0]];
      RunConcat(head, ReplaceQuotes(s[1..], style), Single(word));
      if s[0] == '\'' { RunSplice(style, word); } else { RunOne(s[0], Single(word)); }
      RunReplaced(s[1..], style, word + [s[0]]);
      assert word + [s[0]] + s[1..] == word + s;
      assert s == [s[0]] + s[1..];
    }
  }

  /** Quoting at the start of a word or in the middle of one adds exactly the original text to it. */
  lemma RunQuote(s: string, style: Style, st: State)
    requires st.Between? || st.InWord?
    ensures var word := if st.InWord? then st.word else "";
      Run(Quote(s, style), st) == if NulFree(s) then Go(InWord(word + s, true), []) else Refused
  {
    var word := if st.InWord? then st.word else "";
    var middle := ReplaceQuotes(s, style);
    hide Run, ReplaceQuotes;
    RunConcat("'" + middle, "'", st);
    RunConcat("'", middle, st);
    RunOne('\'', st);
    RunReplaced(s, style, word);
    RunOne('\'', Single(word + s));
  }

  /**
   * Both quoting styles are read back by the shell as one word equal to the input, for every string
   * without a NUL character; no string with one can be passed on.
   */
  lemma QuoteTokenises(s: string, style: Style)
    ensures Tokens(Quote(s, style)) == if NulFree(s) then Some([Word(s, true)]) else None
  {
    RunQuote(s, style, Between);
    assert "" + s == s;
    assert [] + [Word(s, true)] == [Word(s, true)];
  }

  /** An argument as it is put on a command line. */
  datatype Arg = Bare(text: string) | Quoted(text: string, style: Style)

  predicate Passable(arg: Arg) {
    match arg
    case Bare(text) => text != "" && Plain(text)
    case Quoted(text, _) => NulFree(text)
  }

  function Render(arg: Arg): string {
    match arg
    case Bare(text) => text
    case Quoted(text, style) => Quote(text, style)
  }

  function WordOf(arg: Arg): Token { Word(arg.text, arg.Quoted?) }

  /** Arguments each preceded by a space. */
  function Line(args: seq<Arg>): string {
    if args == [] then "" else " " + Render(args[0]) + Line(args[1..])
  }

  lemma LineEmpty()
    ensures Line([]) == ""
  {
  }

  lemma LineNext(arg: Arg, rest: seq<Arg>)
    ensures Line([arg] + rest) == " " + Render(arg) + Line(rest)
  {
    assert ([arg] + rest)[1..] == rest;
  }

  lemma LineOne(arg: Arg)
    ensures Line([arg]) == " " + Render(arg)
  {
    assert [arg][1..] == [];
  }

  lemma {:induction false} LineConcat(front: seq<Arg>, back: seq<Arg>)
    ensures Line(front + back) == Line(front) + Line(back)
  {
    if front == [] {
      assert front + back == back;
    } else {
      assert (front + back)[1..] == front[1..] + back;
      LineConcat(front[1..], back);
    }
  }

  function Words(args: seq<Arg>): seq<Token> { seq(|args|, i requires 0 <= i < |args| => WordOf(args[i])) }

  lemma WordsEmpty()
    ensures Words([]) == []
  {
  }

  lemma WordsNext(arg: Arg, rest: seq<Arg>)
    ensures Words([arg] + rest) == [WordOf(arg)] + Words(rest)
  {
  }

  lemma RunArg(arg: Arg)
    requires Passable(arg)
    ensures Run(Render(arg), Between) == Go(At(arg), [])
  {
    match arg
    case Bare(text) => RunPlainWord(text);
    case Quoted(text, style) => RunQuote(text, style, Between); assert "" + text == text;
  }

  /** The scanner at the end of an argument. */
  function At(arg: Arg): State { InWord(arg.text, arg.Quoted?) }

  lemma RunNextArg(before: Arg, arg: Arg)
    requires Passable(arg)
    ensures Run(" " + Render(arg), At(before)) == Go(At(arg), [WordOf(before)])
  {
    hide Run, Quote;
    RunNext(' ', Render(arg), At(before));
    RunArg(arg);
    assert [WordOf(before)] + [] == [WordOf(before)];
  }

  /** Scanning further arguments completes the word before each of them. */
  lemma {:induction false} RunLine(before: Arg, args: seq<Arg>)
    requires forall arg <- args :: Passable(arg)
    ensures var all := [before] + args; Run(Line(args), At(before)) == Go(At(all[|args|]), Words(all[..|args|]))
    decreases |args|
  {
    hide Run, Quote, Words;
    var all := [before] + args;
    if args == [] {
      RunEmpty(At(before));
      WordsEmpty();
      assert all[..0] == [];
    } else {
      RunConcat(" " + Render(args[0]), Line(args[1..]), At(before));
      RunNextArg(before, args[0]);
      RunLine(args[0], args[1..]);
      assert [args[0]] + args[1..] == args;
      assert all[..|args|] == [before] + args[..|args| - 1];
      WordsNext(before, args[..|args| - 1]);
    }
  }

  lemma RunCommand(first: Arg, args: seq<Arg>)
    requires Passable(first) && forall arg <- args :: Passable(arg)
    ensures var all := [first] + args;
      Run(Render(first) + Line(args), Between) == Go(At(all[|args|]), Words(all[..|args|]))
  {
    hide Run, Quote, Line;
    RunConcat(Render(first), Line(args), Between);
    RunArg(first);
    RunLine(first, args);
  }

  lemma WordsExtend(args: seq<Arg>, last: nat)
    requires |args| == last + 1
    ensures Words(args) == Words(args[..last]) + [WordOf(args[last])]
  {
  }

  /** A command line of passable arguments is read back as exactly those arguments. */
  lemma LineTokenises(first: Arg, args: seq<Arg>)
    requires Passable(first) && forall arg <- args :: Passable(arg)
    ensures Tokens(Render(first) + Line(args)) == Some(Words([first] + args))
  {
    hide Run, Quote, Line, Words;
    RunCommand(first, args);
    WordsExtend([first] + args, |args|);
  }
}
