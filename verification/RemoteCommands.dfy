/** The command lines sent to remote login shells and to `sh -c`, against what the shell makes of them. */
module RemoteCommands {
  import opened Prelude
  import opened ShellTokens
  import opened ShellQuoting
  import StoreNames
  import Wiring

  type PortMapping = Wiring.PortMapping

  // ------------------------------------------------------------------------- published ports

  /** The protocol put on the command line; None for one that is not recognised. */
  function Protocol(p: PortMapping): Option<string> {
    var lower := StoreNames.Lower(p.protocol);
    if lower == "" || lower == "tcp" then Some("tcp")
    else if lower == "udp" then Some("udp")
    else if lower == "sctp" then Some("sctp")
    else None
  }

  predicate Published(p: PortMapping) { p.containerPort > 0 && Protocol(p).Some? }

  /** The argument of `-p`; without a host port the runtime picks one. */
  function Mapping(p: PortMapping): string
    requires Published(p)
  {
    var host := if p.hostPort > 0 then Decimal.Itoa(p.hostPort) + ":" else "";
    host + Decimal.Itoa(p.containerPort) + "/" + Protocol(p).value
  }

  /** The arguments intended for a list of ports. */
  function PublishArgs(ports: seq<PortMapping>): seq<Arg> {
    if ports == [] then []
    else (if Published(ports[0]) then [Bare("-p"), Bare(Mapping(ports[0]))] else []) + PublishArgs(ports[1..])
  }

  /** buildPublishFlags: the text is the intended arguments, each after a space. */
  method BuildPublishFlags(ports: seq<PortMapping>) returns (text: string)
    ensures text == Line(PublishArgs(ports))
  {
    hide Line, PublishArgs, Protocol, Mapping;
    text := "";
    var i := 0;
    assert ports[0..] == ports;
    PublishStart(ports);
    while i < |ports|
      invariant 0 <= i <= |ports|
      invariant text + Line(PublishArgs(ports[i..])) == Line(PublishArgs(ports))
    {
      var p := ports[i];
      PublishNext(ports, i);
      i := i + 1;
      if p.containerPort <= 0 { continue; }
      if Protocol(p).None? { continue; }
      var flag := PublishFlag(p);
      Append(text, flag, Line(PublishArgs(ports[i..])));
      text := text + flag;
    }
    PublishNone(ports, text);
  }

  method PublishFlag(p: PortMapping) returns (flag: string)
    requires Published(p)
    ensures flag == " -p " + Mapping(p)
  {
    hide Protocol, Decimal.Itoa;
    if p.hostPort > 0 {
      flag := " -p " + (Decimal.Itoa(p.hostPort) + ":" + Decimal.Itoa(p.containerPort) + "/" + Protocol(p).value);
    } else {
      assert "" + Decimal.Itoa(p.containerPort) == Decimal.Itoa(p.containerPort);
      flag := " -p " + (Decimal.Itoa(p.containerPort) + "/" + Protocol(p).value);
    }
  }

  lemma Append(a: string, b: string, c: string)
    ensures a + (b + c) == a + b + c
  {
  }

  lemma PublishStart(ports: seq<PortMapping>)
    ensures "" + Line(PublishArgs(ports)) == Line(PublishArgs(ports))
  {
    hide Line, PublishArgs;
  }

  lemma PublishNone(ports: seq<PortMapping>, text: string)
    ensures text + Line(PublishArgs(ports[|ports|..])) == text
  {
    assert Line(PublishArgs(ports[|ports|..])) == "";
  }

  lemma PublishNext(ports: seq<PortMapping>, i: nat)
    requires i < |ports|
    ensures var rest := PublishArgs(ports[i + 1..]);
      Line(PublishArgs(ports[i..])) ==
        if Published(ports[i]) then " -p " + Mapping(ports[i]) + Line(rest) else Line(rest)
  {
    hide Protocol, Mapping, Line;
    var rest := PublishArgs(ports[i + 1..]);
    assert ports[i..][1..] == ports[i + 1..];
    if Published(ports[i]) {
      var mapping := Bare(Mapping(ports[i]));
      assert [Bare("-p"), mapping] + rest == [Bare("-p")] + ([mapping] + rest);
      LineNext(Bare("-p"), [mapping] + rest);
      LineNext(mapping, rest);
      assert " " + "-p" + " " == " -p ";
      RegroupFlag(" " + "-p", mapping.text, Line(rest));
    } else {
      assert [] + rest == rest;
    }
  }

  lemma RegroupFlag(flag: string, text: string, rest: string)
    ensures flag + (" " + text + rest) == flag + " " + text + rest
  {
  }

  /** Decimal text and accepted ids consist of wordy characters. */
  lemma WordyCharsArePlain(s: string)
    requires forall c <- s :: Wordy(c)
    ensures Plain(s)
  {
    forall i | 0 <= i < |s| ensures Wordy(s[i]) { assert s[i] in s; }
    WordyIsPlain(s);
  }

  lemma PlainConcat(a: string, b: string)
    requires Plain(a) && Plain(b)
    ensures Plain(a + b)
  {
    hide PlainChar;
  }

  lemma PlainTexts()
    ensures Plain("") && Plain(":") && Plain("/") && Plain("tcp") && Plain("udp") && Plain("sctp")
  {
    hide Plain;
    WordyIsPlain("");
    WordyIsPlain(":");
    WordyIsPlain("/");
    WordyIsPlain("tcp");
    WordyIsPlain("udp");
    WordyIsPlain("sctp");
  }

  lemma MappingPlain(p: PortMapping)
    requires Published(p)
    ensures Passable(Bare(Mapping(p)))
  {
    hide Plain, Decimal.Itoa, StoreNames.Lower;
    PlainTexts();
    var port := Decimal.Itoa(p.containerPort);
    var host := if p.hostPort > 0 then Decimal.Itoa(p.hostPort) + ":" else "";
    if p.hostPort > 0 {
      WordyCharsArePlain(Decimal.Itoa(p.hostPort));
      PlainConcat(Decimal.Itoa(p.hostPort), ":");
    }
    WordyCharsArePlain(port);
    PlainConcat(host, port);
    PlainConcat(host + port, "/");
    PlainConcat(host + port + "/", Protocol(p).value);
  }

  lemma {:induction false} PublishArgsPassable(ports: seq<PortMapping>)
    ensures forall arg <- PublishArgs(ports) :: Passable(arg)
  {
    if ports == [] {
    } else {
      PublishArgsPassable(ports[1..]);
      if Published(ports[0]) { MappingPlain(ports[0]); }
    }
  }

  // -------------------------------------------------------------------------------- commands

  /** The intended arguments of `run`. */
  function RunArgs(name: string, image: string, ports: seq<PortMapping>): seq<Arg> {
    [Bare("run"), Bare("-d"), Bare("--name"), Quoted(name, ByBackslash)] +
      (PublishArgs(ports) + [Quoted(image, ByBackslash)])
  }

  /** buildRemoteRunCommand: the shell reads it as the intended arguments, whatever runtime, name, image and ports. */
  method BuildRemoteRunCommand(rt: string, name: string, image: string, ports: seq<PortMapping>) returns (cmd: string)
    ensures NulFree(rt) && NulFree(name) && NulFree(image) ==>
      Tokens(cmd) == Some(Words([Quoted(rt, ByBackslash)] + RunArgs(name, image, ports)))
  {
    hide Tokens, Line, Words, Quote, PublishArgs;
    var flags := BuildPublishFlags(ports);
    cmd := Quote(rt, ByBackslash) + " run -d --name " + Quote(name, ByBackslash) + flags + " " +
      Quote(image, ByBackslash);
    RunText(rt, name, image, ports);
    if NulFree(rt) && NulFree(name) && NulFree(image) {
      RunArgsPassable(name, image, ports);
      LineTokenises(Quoted(rt, ByBackslash), RunArgs(name, image, ports));
    }
  }

  lemma RunArgsPassable(name: string, image: string, ports: seq<PortMapping>)
    requires NulFree(name) && NulFree(image)
    ensures forall arg <- RunArgs(name, image, ports) :: Passable(arg)
  {
    hide PublishArgs, NulFree, Plain;
    PublishArgsPassable(ports);
    WordyIsPlain("run");
    WordyIsPlain("-d");
    WordyIsPlain("--name");
  }

  /** Three fixed words, one quoted argument, and what follows. */
  lemma LineHead(a: string, b: string, c: string, q: Arg, rest: seq<Arg>)
    ensures Line([Bare(a), Bare(b), Bare(c), q] + rest) == " " + a + " " + b + " " + c + " " + Render(q) + Line(rest)
  {
    hide Line, Render;
    var l1, l2 := Line([Bare(b), Bare(c), q] + rest), Line([Bare(c), q] + rest);
    LineNext(q, rest);
    LineNext(Bare(c), [q] + rest);
    assert [Bare(c)] + ([q] + rest) == [Bare(c), q] + rest;
    LineNext(Bare(b), [Bare(c), q] + rest);
    assert [Bare(b)] + ([Bare(c), q] + rest) == [Bare(b), Bare(c), q] + rest;
    LineNext(Bare(a), [Bare(b), Bare(c), q] + rest);
    assert [Bare(a)] + ([Bare(b), Bare(c), q] + rest) == [Bare(a), Bare(b), Bare(c), q] + rest;
    RenderBare(a);
    RenderBare(b);
    RenderBare(c);
    assert l2 == " " + c + " " + Render(q) + Line(rest);
    assert l1 == " " + b + " " + c + " " + Render(q) + Line(rest);
  }

  lemma RenderBare(text: string)
    ensures Render(Bare(text)) == text
  {
  }

  lemma RunText(rt: string, name: string, image: string, ports: seq<PortMapping>)
    ensures Quote(rt, ByBackslash) + " run -d --name " + Quote(name, ByBackslash) + Line(PublishArgs(ports)) + " " +
      Quote(image, ByBackslash)
         == Render(Quoted(rt, ByBackslash)) + Line(RunArgs(name, image, ports))
  {
    hide Line, Quote, PublishArgs;
    var q, n, i := Quote(rt, ByBackslash), Quote(name, ByBackslash), Quote(image, ByBackslash);
    LineHead("run", "-d", "--name", Quoted(name, ByBackslash), PublishArgs(ports) + [Quoted(image, ByBackslash)]);
    LineConcat(PublishArgs(ports), [Quoted(image, ByBackslash)]);
    LineOne(Quoted(image, ByBackslash));
    assert " " + "run" + " " + "-d" + " " + "--name" + " " == " run -d --name ";
    Regroup(q, " run -d --name ", n, Line(PublishArgs(ports)), " ", i);
  }

  lemma Regroup(a: string, b: string, c: string, d: string, e: string, f: string)
    ensures a + b + c + d + e + f == a + (b + c + (d + (e + f)))
  {
  }

  function RemoveArgs(name: string): seq<Arg> { [Bare("rm"), Bare("-f"), Quoted(name, ByBackslash)] }

  /** Errors discarded, failure ignored. */
  function Quietly(): seq<Token> { [IoNumber("2"), Op(">"), Word("/dev/null", false), Op("||"), Word("true", false)] }

  /** buildRemoteRemoveCommand. */
  function BuildRemoteRemoveCommand(rt: string, name: string): string {
    Quote(rt, ByBackslash) + " rm -f " + Quote(name, ByBackslash) + " 2>/dev/null || true"
  }

  lemma RemoveCommandTokenises(rt: string, name: string)
    requires NulFree(rt) && NulFree(name)
    ensures Tokens(BuildRemoteRemoveCommand(rt, name)) ==
      Some(Words([Quoted(rt, ByBackslash)] + RemoveArgs(name)) + Quietly())
  {
    hide Run, Line, Quote, Words;
    var first, args := Quoted(rt, ByBackslash), RemoveArgs(name);
    var all := [first] + args;
    RemoveText(rt, name);
    RunCommand(first, args);
    RunConcat(Render(first) + Line(args), " 2>/dev/null || true", Between);
    RunQuietly(args[2]);
    WordsExtend(all, 3);
    var front := Words(all[..3]);
    assert front + ([WordOf(args[2]), IoNumber("2"), Op(">"), Word("/dev/null", false), Op("||")]) +
      [Word("true", false)]
        == front + [WordOf(args[2])] + Quietly();
  }

  lemma RemoveText(rt: string, name: string)
    ensures BuildRemoteRemoveCommand(rt, name) ==
      Render(Quoted(rt, ByBackslash)) + Line(RemoveArgs(name)) + " 2>/dev/null || true"
  {
    hide Line, Quote;
    var n := Quoted(name, ByBackslash);
    LineOne(n);
    LineNext(Bare("-f"), [n]);
    LineNext(Bare("rm"), [Bare("-f"), n]);
    assert [Bare("rm")] + [Bare("-f"), n] == RemoveArgs(name) && [Bare("-f")] + [n] == [Bare("-f"), n];
    assert " " + "rm" + " " + "-f" + " " == " rm -f ";
    RegroupWords("rm", "-f", Render(n));
    Regroup(Quote(rt, ByBackslash), " rm -f ", Render(n), "", "", "");
  }

  lemma RegroupWords(a: string, b: string, c: string)
    ensures " " + a + (" " + b + (" " + c)) == " " + a + " " + b + " " + c
  {
  }

  lemma RunQuietly(arg: Arg)
    ensures Run(" 2>/dev/null || true", At(arg)) ==
      Go(InWord("true", false), [WordOf(arg), IoNumber("2"), Op(">"), Word("/dev/null", false), Op("||")])
  {
    hide Run, Plain;
    WordyIsPlain("2");
    assert " " + Render(Bare("2")) + ">/dev/null || true" == " 2>/dev/null || true";
    RunConcat(" " + Render(Bare("2")), ">/dev/null || true", At(arg));
    RunNextArg(arg, Bare("2"));
    RunRedirection();
  }

  lemma RunRedirection()
    ensures Run(">/dev/null || true", At(Bare("2"))) ==
      Go(InWord("true", false), [IoNumber("2"), Op(">"), Word("/dev/null", false), Op("||")])
  {
    hide Run, Step;
    RunNext('>', "/dev/null || true", At(Bare("2")));
    assert ['>'] + "/dev/null || true" == ">/dev/null || true";
    DescriptorEnds();
    RunDevNull();
  }

  /** Digits right before a redirection are its descriptor. */
  lemma DescriptorEnds()
    ensures Step(At(Bare("2")), '>') == Go(InOp(">"), [IoNumber("2")])
  {
  }

  lemma RunDevNull()
    ensures Run("/dev/null || true", InOp(">")) ==
      Go(InWord("true", false), [Op(">"), Word("/dev/null", false), Op("||")])
  {
    hide Run, Plain;
    RunNext('/', "dev/null || true", InOp(">"));
    assert ['/'] + "dev/null || true" == "/dev/null || true";
    assert "" + ['/'] == "/" && [Op(">")] + [] == [Op(">")];
    assert Step(InOp(">"), '/') == Go(InWord("/", false), [Op(">")]);
    RunConcat("dev/null", " || true", InWord("/", false));
    assert "dev/null" + " || true" == "dev/null || true";
    WordyIsPlain("dev/null");
    RunPlain("dev/null", "/", false);
    assert "/" + "dev/null" == "/dev/null";
    RunOrTrue(Bare("/dev/null"));
  }

  lemma RunOrTrue(arg: Arg)
    ensures Run(" || true", At(arg)) == Go(InWord("true", false), [WordOf(arg), Op("||")])
  {
    hide Run, Plain;
    WordyIsPlain("true");
    RunPlainWord("true");
    RunNext(' ', "true", InOp("||"));
    assert [' '] + "true" == " true" && [Op("||")] + [] == [Op("||")];
    assert Run(" true", InOp("||")) == Go(InWord("true", false), [Op("||")]);
    RunNext('|', " true", InOp("|"));
    assert ['|'] + " true" == "| true" && "|" + ['|'] == "||";
    assert Run("| true", InOp("|")) == Go(InWord("true", false), [Op("||")]);
    RunNext('|', "| true", Between);
    assert ['|'] + "| true" == "|| true" && ['|'] == "|";
    RunNext(' ', "|| true", At(arg));
    assert [' '] + "|| true" == " || true";
  }

  /** buildRemoteListCommand. */
  function BuildRemoteListCommand(rt: string): string { Quote(rt, ByBackslash) + " ps -a --format json" }

  function ListArgs(): seq<Arg> { [Bare("ps"), Bare("-a"), Bare("--format"), Bare("json")] }

  lemma ListCommandTokenises(rt: string)
    requires NulFree(rt)
    ensures Tokens(BuildRemoteListCommand(rt)) == Some(Words([Quoted(rt, ByBackslash)] + ListArgs()))
  {
    hide Tokens, Line, Quote, Words;
    hide Plain;
    ListText();
    WordyIsPlain("ps");
    WordyIsPlain("-a");
    WordyIsPlain("--format");
    WordyIsPlain("json");
    LineTokenises(Quoted(rt, ByBackslash), ListArgs());
  }

  lemma ListText()
    ensures Line(ListArgs()) == " ps -a --format json"
  {
    hide Line, Quote;
    LineHead("ps", "-a", "--format", Bare("json"), []);
    LineEmpty();
    assert ListArgs() == [Bare("ps"), Bare("-a"), Bare("--format"), Bare("json")] + [];
    assert " " + "ps" + " " + "-a" + " " + "--format" + " " + "json" + "" == " ps -a --format json";
  }

  predicate SafeId(id: string) {
    id != "" && forall c <- id :: NameChar(c) || c == '.' || c == '-'
  }

  function StatsArgs(id: string): seq<Arg> {
    [Bare("stats"), Bare("--no-stream"), Bare("--format"), Bare("json")] + [Bare(id)]
  }

  /** buildRemoteStatsCommand; None is the refusal. */
  function BuildRemoteStatsCommand(rt: string, id: string): Option<string> {
    if !SafeId(id) then None else Some(Quote(rt, ByBackslash) + " stats --no-stream --format json " + id)
  }

  lemma StatsCommandTokenises(rt: string, id: string)
    requires NulFree(rt)
    ensures BuildRemoteStatsCommand(rt, id).Some? <==> SafeId(id)
    ensures SafeId(id) ==>
      Tokens(BuildRemoteStatsCommand(rt, id).value) == Some(Words([Quoted(rt, ByBackslash)] + StatsArgs(id)))
  {
    hide Tokens, Line, Quote, Words;
    if SafeId(id) {
      StatsText(id);
      var q := Quote(rt, ByBackslash);
      assert q + " stats --no-stream --format json " + id == q + (" stats --no-stream --format json " + id);
      StatsArgsPassable(id);
      LineTokenises(Quoted(rt, ByBackslash), StatsArgs(id));
    }
  }

  lemma StatsArgsPassable(id: string)
    requires SafeId(id)
    ensures forall arg <- StatsArgs(id) :: Passable(arg)
  {
    hide Plain;
    WordyIsPlain("stats");
    WordyIsPlain("--no-stream");
    WordyIsPlain("--format");
    WordyIsPlain("json");
    WordyCharsArePlain(id);
  }

  lemma StatsText(id: string)
    ensures Line(StatsArgs(id)) == " stats --no-stream --format json " + id
  {
    hide Line, Quote;
    LineHead("stats", "--no-stream", "--format", Bare("json"), [Bare(id)]);
    LineOne(Bare(id));
    var text := " " + "stats" + " " + "--no-stream" + " " + "--format" + " " + "json";
    assert text + " " == " stats --no-stream --format json ";
    assert text + (" " + id) == text + " " + id;
  }

  // ----------------------------------------------------------------- the instrumentation run

  function QuotedArgs(args: seq<string>): seq<Arg> {
    seq(|args|, i requires 0 <= i < |args| => Quoted(args[i], ByDoubleQuotes))
  }

  function Join(parts: seq<string>, sep: string): string {
    if |parts| == 0 then "" else if |parts| == 1 then parts[0] else parts[0] + sep + Join(parts[1..], sep)
  }

  /** shellQuoteArgs. */
  method ShellQuoteArgs(args: seq<string>) returns (text: string)
    ensures " " + text == if args == [] then " " else Line(QuotedArgs(args))
  {
    var parts := [];
    for i := 0 to |args|
      invariant |parts| == i && forall j :: 0 <= j < i ==> parts[j] == Render(QuotedArgs(args)[j])
    {
      parts := parts + [Quote(args[i], ByDoubleQuotes)];
    }
    text := Join(parts, " ");
    if args != [] { JoinIsLine(parts, QuotedArgs(args)); }
  }

  lemma {:induction false} JoinIsLine(parts: seq<string>, args: seq<Arg>)
    requires |parts| == |args| > 0 && forall j :: 0 <= j < |args| ==> parts[j] == Render(args[j])
    ensures " " + Join(parts, " ") == Line(args)
  {
    if |args| == 1 {
      assert Line(args[1..]) == "";
    } else {
      JoinIsLine(parts[1..], args[1..]);
    }
  }

  /** The command line of RunInstrumentation: one assignment, the gradle binary and its arguments. */
  method InstrumentationCommand(port: int, gradle: string, args: seq<string>) returns (cmd: string)
    ensures NulFree(gradle) && (forall a <- args :: NulFree(a)) ==>
      Tokens(cmd) == Some(Words([Serial(port), Quoted(gradle, ByDoubleQuotes)] + QuotedArgs(args)))
    ensures Assigns(WordOf(Serial(port)), "ANDROID_SERIAL", "localhost:" + Decimal.IntText(port))
  {
    SerialAssigns(port);
    hide Assigns, Tokens, Words, Line, Quote, QuotedArgs, Decimal.IntText;
    var target := "localhost:" + Decimal.IntText(port);
    var tail := ShellQuoteArgs(args);
    cmd := "ANDROID_SERIAL=" + target + " " + Quote(gradle, ByDoubleQuotes) + " " + tail;
    if NulFree(gradle) && forall a <- args :: NulFree(a) {
      assert "ANDROID_SERIAL=" + "localhost:" == "ANDROID_SERIAL=localhost:";
      RegroupSerial("ANDROID_SERIAL=", "localhost:", Decimal.IntText(port), Quote(gradle, ByDoubleQuotes), tail);
      InstrumentationTokenises(port, gradle, args, tail);
    }
  }

  function Serial(port: int): Arg { Bare("ANDROID_SERIAL=localhost:" + Decimal.IntText(port)) }

  lemma RegroupSerial(a: string, b: string, c: string, d: string, e: string)
    ensures a + (b + c) + " " + d + " " + e == (a + b + c) + (" " + d) + (" " + e)
  {
  }

  predicate NameChar(c: char) { 'a' <= c <= 'z' || 'A' <= c <= 'Z' || '0' <= c <= '9' || c == '_' }

  /** A word that the shell takes as an assignment when it comes before the command (section 2.10.2, rule 7). */
  predicate Assigns(t: Token, name: string, value: string) {
    && t.Word? && !t.quoted && t.text == name + "=" + value
    && name != "" && !Decimal.IsDigit(name[0]) && forall i :: 0 <= i < |name| ==> NameChar(name[i])
  }

  lemma SerialAssigns(port: int)
    ensures Assigns(WordOf(Serial(port)), "ANDROID_SERIAL", "localhost:" + Decimal.IntText(port))
  {
    hide Decimal.IntText;
    assert "ANDROID_SERIAL" + "=" + "localhost:" == "ANDROID_SERIAL=localhost:";
    Append("ANDROID_SERIAL" + "=", "localhost:", Decimal.IntText(port));
  }

  lemma SerialPassable(port: int)
    ensures Passable(Serial(port))
  {
    hide Plain, Decimal.IntText;
    WordyIsPlain("ANDROID_SERIAL=localhost:");
    WordyCharsArePlain(Decimal.IntText(port));
    PlainConcat("ANDROID_SERIAL=localhost:", Decimal.IntText(port));
  }

  lemma InstrumentationTokenises(port: int, gradle: string, args: seq<string>, tail: string)
    requires NulFree(gradle) && forall a <- args :: NulFree(a)
    requires " " + tail == if args == [] then " " else Line(QuotedArgs(args))
    ensures var binary := Quoted(gradle, ByDoubleQuotes);
      Tokens(Render(Serial(port)) + (" " + Render(binary)) + (" " + tail)) ==
        Some(Words([Serial(port), binary] + QuotedArgs(args)))
  {
    hide Line, Run, Quote, Serial;
    var serial, binary, rest := Serial(port), Quoted(gradle, ByDoubleQuotes), QuotedArgs(args);
    SerialPassable(port);
    LineOne(binary);
    if args == [] {
      RunCommand(serial, [binary]);
      RunConcat(Render(serial) + Line([binary]), " ", Between);
      RunOne(' ', At(binary));
      assert [serial, binary] + rest == [serial, binary] == [serial] + [binary];
      WordsExtend([serial, binary], 1);
      assert " " + tail == " ";
      var done := Words([serial, binary][..1]);
      assert Run(Render(serial) + Line([binary]) + " ", Between) == Go(Between, done + [WordOf(binary)]);
      assert done + [WordOf(binary)] + [] == done + [WordOf(binary)];
    } else {
      LineConcat([binary], rest);
      assert [serial] + ([binary] + rest) == [serial, binary] + rest;
      LineTokenises(serial, [binary] + rest);
      assert Render(serial) + Line([binary]) + Line(rest) == Render(serial) + (Line([binary]) + Line(rest));
    }
  }
}
