/** The remote command lines word by word, as the shell reads them. */
module CommandFacts {
  import opened ShellTokens
  import opened ShellQuoting
  import opened RemoteCommands

  // ------------------------------------------------------------------------- published ports

  /** A port is published exactly with a positive container port and a protocol that is known in any letter case. */
  lemma PublishedReads(p: PortMapping)
    ensures Published(p) <==> p.containerPort > 0 && StoreNames.Lower(p.protocol) in {"", "tcp", "udp", "sctp"}
    ensures Published(p) ==>
      Protocol(p).value == if StoreNames.Lower(p.protocol) == "" then "tcp" else StoreNames.Lower(p.protocol)
  {
    hide StoreNames.Lower;
  }

  /** Its argument: host port, colon, container port, slash, protocol; the first two only with a host port. */
  lemma MappingReads(p: PortMapping)
    requires Published(p)
    ensures var proto := if StoreNames.Lower(p.protocol) == "" then "tcp" else StoreNames.Lower(p.protocol);
      Mapping(p) == (if p.hostPort > 0 then Decimal.Itoa(p.hostPort) + ":" else "") +
        Decimal.Itoa(p.containerPort) + "/" + proto
    ensures p.hostPort > 0 ==> Decimal.Value(Decimal.Itoa(p.hostPort)) == p.hostPort
    ensures Decimal.Value(Decimal.Itoa(p.containerPort)) == p.containerPort
  {
    hide Decimal.Itoa, Decimal.Value;
    PublishedReads(p);
    if p.hostPort > 0 { Decimal.ValueOfItoa(p.hostPort); }
    Decimal.ValueOfItoa(p.containerPort);
  }

  /** The words are, for each of the listed ports, `-p` and its argument. */
  ghost predicate Spelt(ports: seq<PortMapping>, at: seq<nat>, words: seq<Token>) {
    && |words| == 2 * |at|
    && forall i :: 0 <= i < |at| ==> SpeltAt(ports, at, words, i)
  }

  predicate SpeltAt(ports: seq<PortMapping>, at: seq<nat>, words: seq<Token>, i: nat)
    requires i < |at| && |words| == 2 * |at|
  {
    && at[i] < |ports| && Published(ports[at[i]])
    && words[2 * i] == Word("-p", false) && words[2 * i + 1] == Word(Mapping(ports[at[i]]), false)
  }

  function Shifted(at: seq<nat>): seq<nat> { seq(|at|, i requires 0 <= i < |at| => at[i] + 1) }

  /** The words for the ports: for each published one, in order, `-p` and its argument. */
  lemma {:induction false} PublishWordsRead(ports: seq<PortMapping>) returns (at: seq<nat>)
    ensures Spelt(ports, at, Words(PublishArgs(ports)))
    ensures forall i, j :: 0 <= i < j < |at| ==> at[i] < at[j]
    ensures forall i :: 0 <= i < |ports| && Published(ports[i]) ==> i in at
  {
    hide Published, Mapping, Spelt;
    if ports == [] {
      at := [];
      assert Spelt(ports, at, Words(PublishArgs(ports))) by { NothingSpelt(ports); }
    } else {
      var rest := PublishWordsRead(ports[1..]);
      at := (if Published(ports[0]) then [0] else []) + Shifted(rest);
      SpeltNext(ports, rest);
      PublishedAt(ports, rest);
    }
  }

  lemma NothingSpelt(ports: seq<PortMapping>)
    ensures Spelt(ports, [], Words(PublishArgs([])))
  {
  }

  lemma SpeltNext(ports: seq<PortMapping>, rest: seq<nat>)
    requires ports != [] && Spelt(ports[1..], rest, Words(PublishArgs(ports[1..])))
    ensures Spelt(ports, (if Published(ports[0]) then [0] else []) + Shifted(rest), Words(PublishArgs(ports)))
  {
    hide Published, Mapping, PublishArgs;
    var tail, words := Words(PublishArgs(ports[1..])), Words(PublishArgs(ports));
    var at := (if Published(ports[0]) then [0] else []) + Shifted(rest);
    FirstWords(ports);
    var skip := if Published(ports[0]) then 1 else 0;
    forall i | 0 <= i < |at| ensures SpeltAt(ports, at, words, i) {
      if i >= skip {
        assert SpeltAt(ports[1..], rest, tail, i - skip);
        assert at[i] == rest[i - skip] + 1 && ports[at[i]] == ports[1..][rest[i - skip]];
        assert words[2 * i] == tail[2 * (i - skip)] && words[2 * i + 1] == tail[2 * (i - skip) + 1];
      }
    }
  }

  lemma FirstWords(ports: seq<PortMapping>)
    requires ports != []
    ensures Words(PublishArgs(ports)) ==
      (if Published(ports[0]) then [Word("-p", false), Word(Mapping(ports[0]), false)] else []) +
      Words(PublishArgs(ports[1..]))
  {
    hide Published, Mapping;
  }

  lemma PublishedAt(ports: seq<PortMapping>, rest: seq<nat>)
    requires ports != [] && forall i :: 0 <= i < |ports| - 1 && Published(ports[1..][i]) ==> i in rest
    ensures var at := (if Published(ports[0]) then [0] else []) + Shifted(rest);
      forall i :: 0 <= i < |ports| && Published(ports[i]) ==> i in at
  {
    hide Published;
    var at := (if Published(ports[0]) then [0] else []) + Shifted(rest);
    forall i | 0 <= i < |ports| && Published(ports[i]) ensures i in at {
      if i == 0 {
        assert at[0] == 0;
      } else {
        assert ports[1..][i - 1] == ports[i] && i - 1 in rest;
        var j :| 0 <= j < |rest| && rest[j] == i - 1;
        assert at[j + if Published(ports[0]) then 1 else 0] == i;
      }
    }
  }

  // -------------------------------------------------------------------------------- commands

  /** `run`: runtime, run, -d, --name, name, the ports, image. */
  lemma RunWordsRead(rt: string, name: string, image: string, ports: seq<PortMapping>)
    ensures Words([Quoted(rt, ByBackslash)] + RunArgs(name, image, ports)) ==
      [Word(rt, true), Word("run", false), Word("-d", false), Word("--name", false), Word(name, true)] +
      Words(PublishArgs(ports)) + [Word(image, true)]
  {
    hide PublishArgs;
  }

  /** `rm`: runtime, rm, -f, name, with the errors thrown away and a failure ignored. */
  lemma RemoveWordsRead(rt: string, name: string)
    ensures Words([Quoted(rt, ByBackslash)] + RemoveArgs(name)) + Quietly() ==
      [Word(rt, true), Word("rm", false), Word("-f", false), Word(name, true), IoNumber("2"), Op(">"),
       Word("/dev/null", false), Op("||"), Word("true", false)]
  {
  }

  lemma ListWordsRead(rt: string)
    ensures Words([Quoted(rt, ByBackslash)] + ListArgs()) ==
      [Word(rt, true), Word("ps", false), Word("-a", false), Word("--format", false), Word("json", false)]
  {
  }

  /** Ids of letters, digits, underscores, dots and dashes are accepted, and no others. */
  lemma StatsWordsRead(rt: string, id: string)
    ensures Words([Quoted(rt, ByBackslash)] + StatsArgs(id)) ==
      [Word(rt, true), Word("stats", false), Word("--no-stream", false), Word("--format", false), Word("json", false),
       Word(id, false)]
    ensures SafeId(id) <==>
      && id != ""
      && forall i :: 0 <= i < |id| ==>
           'a' <= id[i] <= 'z' || 'A' <= id[i] <= 'Z' || '0' <= id[i] <= '9' || id[i] == '_' || id[i] == '.' ||
           id[i] == '-'
  {
    if forall i :: 0 <= i < |id| ==> NameChar(id[i]) || id[i] == '.' || id[i] == '-' {
      forall c <- id ensures NameChar(c) || c == '.' || c == '-' {
        var i :| 0 <= i < |id| && id[i] == c;
      }
    } else {
      var i :| 0 <= i < |id| && !(NameChar(id[i]) || id[i] == '.' || id[i] == '-');
      assert id[i] in id;
    }
  }

  /** The instrumentation run: the serial, the gradle binary, and each argument as it is. */
  lemma InstrumentationWordsRead(port: int, gradle: string, args: seq<string>, i: nat)
    ensures var words := Words([Serial(port), Quoted(gradle, ByDoubleQuotes)] + QuotedArgs(args));
      && |words| == |args| + 2 && words[1] == Word(gradle, true)
      && words[0] == Word("ANDROID_SERIAL=localhost:" + Decimal.IntText(port), false)
      && (i < |args| ==> words[i + 2] == Word(args[i], true))
  {
    hide Decimal.IntText;
  }
}
