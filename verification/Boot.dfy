/**
 * The boot sequence: discovery, compose groups, distribution, health checks and rollback. The
 * collaborators' answers are parameters and the commands issued to them are recorded in a trace.
 * Maps are walked in any order.
 */
module Boot {
  import opened Prelude

  datatype Endpoint = Endpoint(
    enabled: bool, required: bool, remote: bool, discoverable: bool, composeFile: string, profile: string)

  datatype Status = Skipped | Discovered | Started | Remote | Distributed | Failed

  type Results = map<string, Status>

  datatype Summary = Summary(started: int, remote: int, discovered: int, failed: int, skipped: int)

  datatype Project = Project(file: string, profile: string)

  datatype Command =
    | Up(project: Project, ok: bool)
    | Down(project: Project)
    | DistributeEndpoints(names: seq<string>)
    | Undistribute

  /** Which collaborators are configured. */
  datatype Config = Config(orchestrator: bool, distributor: bool, discoverer: bool, healthChecker: bool)

  /**
   * The collaborators' answers in one run: what discovery finds, which projects come up, whether
   * the context is cancelled at each of the three checks, how many endpoints the distributor says it
   * deployed, and which endpoints are unhealthy.
   */
  datatype Answers = Answers(
    found: set<string>, comesUp: Project -> bool, cancelled1: bool, cancelled2: bool, cancelled3: bool,
    deployed: int, unhealthy: set<string>)

  // ---------------------------------------------------------------------------- accounting

  ghost function With(results: Results, st: Status): set<string> {
    set n | n in results && results[n] == st
  }

  /** How recording one status moves the count of another. */
  ghost function Moved(results: Results, n: string, st: Status, s: Status): int {
    (if s == st then 1 else 0) - (if n in results && results[n] == s then 1 else 0)
  }

  lemma WithNow(results: Results, n: string, st: Status, s: Status)
    ensures With(results[n := st], s) == if s == st then With(results, s) + {n} else With(results, s) - {n}
  {
  }

  lemma Recount(results: Results, n: string, st: Status, s: Status)
    ensures |With(results[n := st], s)| == |With(results, s)| + Moved(results, n, st, s)
  {
    var before := With(results, s);
    assert n in before <==> n in results && results[n] == s;
    hide With;
    WithNow(results, n, st, s);
    if n in before { assert before + {n} == before; } else { assert before - {n} == before; }
  }

  /**
   * The counters against the recorded results. `hidden` are the discovered endpoints whose compose
   * group failed to start, `spared` the optional endpoints missed in distribution.
   */
  ghost predicate Accounts(results: Results, sum: Summary, hidden: set<string>, spared: set<string>) {
    && sum.skipped == |With(results, Skipped)|
    && sum.started == |With(results, Started)|
    && sum.remote == |With(results, Remote)| + |With(results, Distributed)|
    && sum.discovered == |With(results, Discovered)| + |hidden|
    && sum.failed == |With(results, Failed)| - |spared|
    && (forall n <- hidden :: n in results && results[n] == Failed)
    && (forall n <- spared :: n in results && results[n] == Failed)
  }

  /** The counter that goes with a status. */
  function Counted(sum: Summary, st: Status, delta: int): Summary {
    match st
    case Skipped => sum.(skipped := sum.skipped + delta)
    case Discovered => sum.(discovered := sum.discovered + delta)
    case Started => sum.(started := sum.started + delta)
    case Remote => sum.(remote := sum.remote + delta)
    case Distributed => sum.(remote := sum.remote + delta)
    case Failed => sum.(failed := sum.failed + delta)
  }

  lemma RecountAll(results: Results, n: string, st: Status)
    ensures forall s :: |With(results[n := st], s)| == |With(results, s)| + Moved(results, n, st, s)
  {
    forall s ensures |With(results[n := st], s)| == |With(results, s)| + Moved(results, n, st, s) {
      Recount(results, n, st, s);
    }
  }

  /** A new result counted where it belongs. */
  lemma RecordNew(results: Results, sum: Summary, hidden: set<string>, spared: set<string>, n: string, st: Status)
    requires Accounts(results, sum, hidden, spared) && n !in results
    ensures Accounts(results[n := st], Counted(sum, st, 1), hidden, spared)
  {
    RecountAll(results, n, st);
  }

  /** A discovered endpoint overwritten by its group's failure: counted as failed, never uncounted as discovered. */
  lemma RecordHidden(results: Results, sum: Summary, hidden: set<string>, spared: set<string>, n: string)
    requires Accounts(results, sum, hidden, spared) && n in results && results[n] == Discovered
    ensures Accounts(results[n := Failed], Counted(sum, Failed, 1), hidden + {n}, spared)
  {
    RecountAll(results, n, Failed);
  }

  /** An optional endpoint missed in distribution: recorded as failed, not counted. */
  lemma RecordSpared(results: Results, sum: Summary, hidden: set<string>, spared: set<string>, n: string)
    requires Accounts(results, sum, hidden, spared) && n !in results
    ensures Accounts(results[n := Failed], sum, hidden, spared + {n})
  {
    RecountAll(results, n, Failed);
  }

  /** A result turned into a failure and moved from its own counter. */
  lemma RecordFailure(results: Results, sum: Summary, hidden: set<string>, spared: set<string>, n: string)
    requires Accounts(results, sum, hidden, spared) && n in results && results[n] != Failed
    ensures Accounts(results[n := Failed], Counted(Counted(sum, results[n], -1), Failed, 1), hidden, spared)
  {
    RecountAll(results, n, Failed);
  }

  // ------------------------------------------------------- what each phase makes of an endpoint

  type Endpoints = map<string, Endpoint>

  /** The compose group of a file: enabled endpoints only. */
  ghost function Group(eps: Endpoints, file: string): set<string> {
    set n | n in eps && eps[n].enabled && eps[n].composeFile == file
  }

  predicate Grouped(ep: Endpoint) { ep.enabled && ep.composeFile != "" }

  /** After discovery. */
  function Status1(cfg: Config, a: Answers, n: string, ep: Endpoint): Option<Status> {
    if !ep.enabled then Some(Skipped)
    else if ep.discoverable && cfg.discoverer && n in a.found then Some(Discovered)
    else None
  }

  /** The profile a group was brought up with, for each compose file tried. Map order decides. */
  type Profiles = map<string, string>

  /** A walk over the group can meet this profile first; an empty one only if there is no other. */
  ghost predicate Offers(eps: Endpoints, group: set<string>, profile: string)
    requires group <= eps.Keys
  {
    if profile == "" then forall n <- group :: eps[n].profile == ""
    else exists n <- group :: eps[n].profile == profile
  }

  /** The profile that a walk in this order settles on. */
  function FirstProfile(eps: Endpoints, walk: seq<string>): string {
    if walk == [] then ""
    else
      var before, last := FirstProfile(eps, walk[..|walk| - 1]), walk[|walk| - 1];
      if before != "" then before else if last in eps then eps[last].profile else ""
  }

  ghost predicate Offered(eps: Endpoints, pf: Profiles) {
    forall f <- pf :: Offers(eps, Group(eps, f), pf[f])
  }

  /** Every group has been tried, each with a profile it offers. */
  ghost predicate Chosen(cfg: Config, eps: Endpoints, pf: Profiles) {
    pf.Keys == ComposeFiles(cfg, eps) && Offered(eps, pf)
  }

  predicate ComesUp(a: Answers, pf: Profiles, file: string)
    requires file in pf
  {
    a.comesUp(Project(file, pf[file]))
  }

  /** After the compose groups with a chosen profile have been tried. */
  function Status2(cfg: Config, a: Answers, pf: Profiles, n: string, ep: Endpoint): Option<Status> {
    if !Grouped(ep) || ep.composeFile !in pf then Status1(cfg, a, n, ep)
    else if !ComesUp(a, pf, ep.composeFile) then Some(Failed)
    else if Status1(cfg, a, n, ep).Some? then Status1(cfg, a, n, ep)
    else if ep.remote then Some(Remote)
    else Some(Started)
  }

  ghost function ComposeFiles(cfg: Config, eps: Endpoints): set<string> {
    if cfg.orchestrator then AllFiles(eps) else {}
  }

  ghost function AllFiles(eps: Endpoints): set<string> {
    set n | n in eps && Grouped(eps[n]) :: eps[n].composeFile
  }

  /** The endpoints handed to the distributor. */
  ghost function Candidates(cfg: Config, eps: Endpoints, a: Answers): set<string> {
    if !cfg.distributor then {}
    else
      set n | n in eps && eps[n].enabled && eps[n].remote && eps[n].composeFile !in ComposeFiles(cfg, eps) &&
        Status1(cfg, a, n, eps[n]).None?
  }

  /** After distribution, when the endpoints in `missed` were not deployed. */
  ghost function Status3(cfg: Config, eps: Endpoints, a: Answers, pf: Profiles, missed: set<string>, n: string)
    : Option<Status>
    requires n in eps
  {
    if n in Candidates(cfg, eps, a) then Some(if n in missed then Failed else Distributed)
    else Status2(cfg, a, pf, n, eps[n])
  }

  /** After the remaining remote endpoints are taken as they are. */
  ghost function Status4(cfg: Config, eps: Endpoints, a: Answers, pf: Profiles, missed: set<string>, n: string)
    : Option<Status>
    requires n in eps
  {
    var st := Status3(cfg, eps, a, pf, missed, n);
    if st.None? && eps[n].remote then Some(Remote) else st
  }

  /** After the health checks. */
  ghost function Status5(cfg: Config, eps: Endpoints, a: Answers, pf: Profiles, missed: set<string>, n: string)
    : Option<Status>
    requires n in eps
  {
    if Condemned(cfg, eps, a, n) then Some(Failed) else Status4(cfg, eps, a, pf, missed, n)
  }

  function Entry(results: Results, n: string): Option<Status> {
    if n in results then Some(results[n]) else None
  }

  /** The discovered endpoints that a failed compose group overwrites. */
  ghost function Hidden(cfg: Config, eps: Endpoints, a: Answers, pf: Profiles): set<string> {
    set n | n in eps && Grouped(eps[n]) && eps[n].composeFile in pf && !ComesUp(a, pf, eps[n].composeFile) &&
      Status1(cfg, a, n, eps[n]) == Some(Discovered)
  }

  ghost function Spared(eps: Endpoints, missed: set<string>): set<string> {
    set n | n in missed && n in eps && !eps[n].required
  }

  // --------------------------------------------------------------------------- the commands

  /** The projects brought up, in order. */
  function Booted(cmds: seq<Command>): seq<Project> {
    if cmds == [] then []
    else
      var last := cmds[|cmds| - 1];
      Booted(cmds[..|cmds| - 1]) + if last.Up? && last.ok then [last.project] else []
  }

  predicate Invoked(cmds: seq<Command>) { exists c <- cmds :: c.DistributeEndpoints? }

  /** One Up per file, as the orchestrator answers it, and the projects that came up. */
  ghost predicate Climbing(a: Answers, pf: Profiles, cmds: seq<Command>, booted: seq<Project>) {
    && |cmds| == |pf|
    && (forall c <- cmds :: Brings(a, pf, c))
    && (forall f <- pf :: Up(Project(f, pf[f]), ComesUp(a, pf, f)) in cmds)
    && booted == Booted(cmds)
  }

  /** The Up of a group with its chosen profile. */
  predicate Brings(a: Answers, pf: Profiles, c: Command) {
    c.Up? && c.project.file in pf && c.project.profile == pf[c.project.file] && c.ok == a.comesUp(c.project)
  }

  function DownsInReverse(ps: seq<Project>): seq<Command> {
    seq(|ps|, i requires 0 <= i < |ps| => Down(ps[|ps| - 1 - i]))
  }

  /** What an error return must issue after the forward commands. */
  function Rollback(cmds: seq<Command>): seq<Command> {
    (if Invoked(cmds) then [Undistribute] else []) + DownsInReverse(Booted(cmds))
  }

  lemma BootedExtends(cmds: seq<Command>, c: Command)
    ensures Booted(cmds + [c]) == Booted(cmds) + (if c.Up? && c.ok then [c.project] else [])
    ensures Invoked(cmds + [c]) <==> Invoked(cmds) || c.DistributeEndpoints?
  {
    assert (cmds + [c])[..|cmds|] == cmds;
  }

  /** One Down per successful Up, on the same project, last one first. */
  lemma {:induction false} RollbackMirrorsUps(cmds: seq<Command>, i: nat)
    requires i < |cmds| && cmds[i].Up? && cmds[i].ok
    ensures var later := |Booted(cmds[i + 1..])|; var skip := if Invoked(cmds) then 1 else 0;
      && skip + later < |Rollback(cmds)| && Rollback(cmds)[skip + later] == Down(cmds[i].project)
  {
    BootedSplits(cmds[..i + 1], cmds[i + 1..]);
    assert cmds[..i + 1] + cmds[i + 1..] == cmds;
    BootedExtends(cmds[..i], cmds[i]);
    assert cmds[..i] + [cmds[i]] == cmds[..i + 1];
  }

  lemma {:induction false} BootedSplits(front: seq<Command>, back: seq<Command>)
    ensures Booted(front + back) == Booted(front) + Booted(back)
  {
    if back == [] {
      assert front + back == front && Booted(back) == [];
    } else {
      var n := |back| - 1;
      BootedSplits(front, back[..n]);
      BootedStep(front, back[..n], back[n]);
      assert back[..n] + [back[n]] == back;
    }
  }

  lemma BootedStep(front: seq<Command>, back: seq<Command>, c: Command)
    requires Booted(front + back) == Booted(front) + Booted(back)
    ensures Booted(front + (back + [c])) == Booted(front) + Booted(back + [c])
  {
    hide Booted;
    BootedExtends(front + back, c);
    BootedExtends(back, c);
    assert (front + back) + [c] == front + (back + [c]);
  }

  // --------------------------------------------------------------------------- the manager

  class BootManager {
    const endpoints: Endpoints
    const cfg: Config
    var results: Results
    /** Commands issued to the orchestrator and the distributor. */
    var trace: seq<Command>

    constructor (endpoints: Endpoints, cfg: Config)
      ensures this.endpoints == endpoints && this.cfg == cfg && results == map[] && trace == []
    {
      this.endpoints, this.cfg, results, trace := endpoints, cfg, map[], [];
    }

    method Discover(a: Answers) returns (sum: Summary)
      modifies this`results
      ensures Settled(AfterDiscovery, cfg, endpoints, a, map[], {}, results, sum)
    {
      results := map[];
      sum := Summary(0, 0, 0, 0, 0);
      var todo := endpoints.Keys;
      assert forall s :: With(results, s) == {};
      while todo != {}
        invariant todo <= endpoints.Keys && results.Keys <= endpoints.Keys
        invariant forall n <- endpoints ::
          Entry(results, n) == if n in todo then None else Status1(cfg, a, n, endpoints[n])
        invariant Accounts(results, sum, {}, {})
        decreases todo
      {
        var n :| n in todo;
        todo := todo - {n};
        var st := Status1(cfg, a, n, endpoints[n]);
        if st.Some? {
          RecordNew(results, sum, {}, {}, n, st.value);
          results := results[n := st.value];
          sum := Counted(sum, st.value, 1);
        }
      }
    }

    /** A compose group that did not come up: every member failed, whatever was recorded before. */
    method GroupFailed(group: set<string>, sum0: Summary, ghost hidden0: set<string>)
      returns (sum: Summary, ghost hidden: set<string>)
      requires Accounts(results, sum0, hidden0, {})
      requires forall n <- group :: n in results ==> results[n] == Discovered
      modifies this`results
      ensures forall m :: Entry(results, m) == Checked(old(results), m, m in group)
      ensures forall m :: m in hidden <==> m in hidden0 || (m in group && m in old(results))
      ensures Accounts(results, sum, hidden, {})
    {
      hide Accounts;
      sum, hidden := sum0, hidden0;
      var todo := group;
      while todo != {}
        invariant todo <= group
        invariant forall m :: Entry(results, m) == Checked(old(results), m, m in group && m !in todo)
        invariant forall m :: m in hidden <==> m in hidden0 || (m in group && m !in todo && m in old(results))
        invariant Accounts(results, sum, hidden, {})
        decreases todo
      {
        var n :| n in todo;
        assert Entry(results, n) == Entry(old(results), n);
        if n in results {
          RecordHidden(results, sum, hidden, {}, n);
          hidden := hidden + {n};
        } else {
          RecordNew(results, sum, hidden, {}, n, Failed);
        }
        todo := todo - {n};
        results := results[n := Failed];
        sum := sum.(failed := sum.failed + 1);
      }
    }

    /** A compose group that came up: members without a result are started, or remote. */
    method GroupUp(group: set<string>, sum0: Summary, ghost hidden: set<string>) returns (sum: Summary)
      requires Accounts(results, sum0, hidden, {}) && group <= endpoints.Keys
      modifies this`results
      ensures forall m :: Entry(results, m) == AfterUp(old(results), m, m in group)
      ensures Accounts(results, sum, hidden, {})
    {
      hide Accounts;
      sum := sum0;
      var todo := group;
      while todo != {}
        invariant todo <= group
        invariant forall m :: Entry(results, m) == AfterUp(old(results), m, m in group && m !in todo)
        invariant Accounts(results, sum, hidden, {})
        decreases todo
      {
        var n :| n in todo;
        assert Entry(results, n) == Entry(old(results), n);
        todo := todo - {n};
        if n !in results {
          var st := if endpoints[n].remote then Remote else Started;
          RecordNew(results, sum, hidden, {}, n, st);
          results := results[n := st];
          sum := Counted(sum, st, 1);
        }
      }
    }

    ghost function AfterUp(before: Results, m: string, member: bool): Option<Status> {
      if m in before || !member || m !in endpoints then Entry(before, m)
      else Some(if endpoints[m].remote then Remote else Started)
    }

    /** groupByCompose. */
    method GroupByCompose() returns (groups: map<string, set<string>>)
      ensures groups.Keys == AllFiles(endpoints)
      ensures forall f <- groups :: f != "" && groups[f] == Group(endpoints, f)
    {
      groups := map[];
      var todo := endpoints.Keys;
      while todo != {}
        invariant todo <= endpoints.Keys
        invariant forall f :: f in groups <==>
          exists n <- endpoints :: n !in todo && Grouped(endpoints[n]) && endpoints[n].composeFile == f
        invariant forall f <- groups :: f != "" && groups[f] == Group(endpoints, f) - todo
        decreases todo
      {
        var n :| n in todo;
        todo := todo - {n};
        var ep := endpoints[n];
        if ep.composeFile != "" && ep.enabled {
          if ep.composeFile !in groups {
            assert Group(endpoints, ep.composeFile) - todo == {n};
            groups := groups[ep.composeFile := {}];
          }
          groups := groups[ep.composeFile := groups[ep.composeFile] + {n}];
        }
      }
      assert forall f :: f in groups <==> f in AllFiles(endpoints);
    }

    /** The first non-empty profile met while walking a group; `walk` are the members met. */
    method GroupProfile(group: set<string>) returns (profile: string, ghost walk: seq<string>)
      requires group <= endpoints.Keys
      ensures Offers(endpoints, group, profile)
      ensures Distinct(walk) && (forall n <- walk :: n in group) && profile == FirstProfile(endpoints, walk)
      ensures profile == "" ==> forall n <- group :: n in walk
    {
      profile, walk := "", [];
      var todo := group;
      while todo != {}
        invariant todo <= group && profile == "" == FirstProfile(endpoints, walk)
        invariant Distinct(walk) && forall n :: n in walk <==> n in group && n !in todo
        invariant forall n <- walk :: endpoints[n].profile == ""
        decreases todo
      {
        var n :| n in todo;
        todo := todo - {n};
        assert (walk + [n])[..|walk|] == walk;
        walk := walk + [n];
        if endpoints[n].profile != "" { return endpoints[n].profile, walk; }
      }
    }

    /** One compose group: its Up, and what it makes of its members. */
    method TryGroup(a: Answers, file: string, group: set<string>, sum0: Summary,
                    ghost pf: Profiles, ghost hidden0: set<string>)
      returns (project: Project, sum: Summary, ghost hidden: set<string>)
      requires file !in pf && file != "" && group == Group(endpoints, file)
      requires Composed(cfg, endpoints, a, pf, results, sum0, hidden0)
      modifies this`results
      ensures project.file == file
      ensures Composed(cfg, endpoints, a, pf[file := project.profile], results, sum, hidden)
    {
      hide Accounts, Offers, Hidden;
      ghost var walk;
      var profile;
      profile, walk := GroupProfile(group);
      project, hidden := Project(file, profile), hidden0;
      if !a.comesUp(project) {
        sum, hidden := GroupFailed(group, sum0, hidden0);
      } else {
        sum := GroupUp(group, sum0, hidden0);
      }
      OfferedGrows(endpoints, pf, project);
      FileTried(cfg, endpoints, a, pf, project, old(results), results, hidden0, hidden);
    }

    /** Note an Up, and the project when it came up. */
    method Record(a: Answers, ghost pf: Profiles, cmds0: seq<Command>, booted0: seq<Project>, project: Project)
      returns (cmds: seq<Command>, booted: seq<Project>)
      requires Climbing(a, pf, cmds0, booted0) && project.file !in pf
      ensures Climbing(a, pf[project.file := project.profile], cmds, booted)
    {
      UpNoted(a, pf, cmds0, booted0, project);
      cmds, booted := cmds0 + [Up(project, a.comesUp(project))], booted0;
      if a.comesUp(project) { booted := booted + [project]; }
    }

    /** The compose phase: one Up per group, in any order, each with a profile its group offers. */
    method Compose(a: Answers, sum0: Summary)
      returns (sum: Summary, bootedProjects: seq<Project>, cmds: seq<Command>, ghost pf: Profiles)
      requires Settled(AfterDiscovery, cfg, endpoints, a, map[], {}, results, sum0)
      modifies this`results
      ensures Settled(AfterCompose, cfg, endpoints, a, pf, {}, results, sum)
      ensures Climbing(a, pf, cmds, bootedProjects) && Chosen(cfg, endpoints, pf)
    {
      hide Accounts, Climbing, Composed, Settled;
      sum, bootedProjects, cmds, pf := sum0, [], [], map[];
      ghost var hidden := {};
      NothingComposed(cfg, endpoints, a, results, sum);
      NoUpYet(a);
      var groups := GroupByCompose();
      var todo := if cfg.orchestrator then groups.Keys else {};
      ghost var all := todo;
      while todo != {}
        invariant todo <= all <= groups.Keys
        invariant forall f :: f in pf <==> f in all && f !in todo
        invariant Composed(cfg, endpoints, a, pf, results, sum, hidden)
        invariant Climbing(a, pf, cmds, bootedProjects)
        decreases todo
      {
        var file :| file in todo;
        todo := todo - {file};
        var project;
        project, sum, hidden := TryGroup(a, file, groups[file], sum, pf, hidden);
        cmds, bootedProjects := Record(a, pf, cmds, bootedProjects, project);
        pf := pf[file := project.profile];
      }
      AllComposed(cfg, endpoints, a, pf, results, sum, hidden);
    }

    /** The remote endpoints that have no result yet, in the order they are met. */
    method RemoteNames(a: Answers, ghost pf: Profiles) returns (names: seq<string>)
      requires pf.Keys == ComposeFiles(cfg, endpoints) && cfg.distributor
      requires forall n <- endpoints :: Entry(results, n) == Status2(cfg, a, pf, n, endpoints[n])
      ensures Distinct(names) && forall n :: n in names <==> n in Candidates(cfg, endpoints, a)
    {
      names := [];
      var todo := endpoints.Keys;
      while todo != {}
        invariant todo <= endpoints.Keys && Distinct(names)
        invariant forall n :: n in names <==> n in Candidates(cfg, endpoints, a) && n !in todo
        decreases todo
      {
        var n :| n in todo;
        todo := todo - {n};
        CandidateIff(cfg, endpoints, a, pf, n);
        if n !in results && endpoints[n].remote && endpoints[n].enabled {
          names := names + [n];
        }
      }
    }

    /** Attribute the reported number of deployments to the names handed over, first come first served. */
    method Attribute(names: seq<string>, deployed: nat, sum0: Summary, ghost hidden: set<string>) returns (sum: Summary)
      requires Distinct(names) && deployed <= |names| && forall n <- names :: n in endpoints && n !in results
      requires Accounts(results, sum0, hidden, {})
      modifies this`results
      ensures results == Attributed(old(results), names, deployed, |names|)
      ensures Accounts(results, sum, hidden, SparedUpTo(endpoints, names, deployed, |names|))
    {
      hide Accounts;
      sum := sum0;
      for i := 0 to |names|
        invariant results == Attributed(old(results), names, deployed, i)
        invariant Accounts(results, sum, hidden, SparedUpTo(endpoints, names, deployed, i))
      {
        var n, up := names[i], i < deployed;
        AttributeStep(old(results), endpoints, names, deployed, i, sum, hidden);
        results := results[n := DeployStatus(up)];
        sum := DeploymentCounted(sum, up, endpoints[n].required);
      }
    }

    /** The distribution phase: at most one call to the distributor. */
    method DistributeRemote(a: Answers, sum0: Summary, ghost pf: Profiles, ghost hidden: set<string>)
      returns (sum: Summary, cmds: seq<Command>, ghost missed: set<string>)
      requires Chosen(cfg, endpoints, pf) && Composed(cfg, endpoints, a, pf, results, sum0, hidden)
      modifies this`results
      ensures results.Keys <= endpoints.Keys
      ensures forall n <- endpoints :: Entry(results, n) == Status3(cfg, endpoints, a, pf, missed, n)
      ensures Shortfall(cfg, endpoints, a, missed)
      ensures Accounts(results, sum, hidden, Spared(endpoints, missed))
      ensures Handed(cfg, endpoints, a, cmds)
    {
      hide Accounts, Candidates, Status2, Attributed, SparedUpTo;
      sum, cmds, missed := sum0, [], {};
      NothingMissed(cfg, endpoints, a, pf);
      if !cfg.distributor { return; }
      var names := RemoteNames(a, pf);
      CandidatesListed(Candidates(cfg, endpoints, a), names);
      if |names| == 0 { return; }
      cmds := [DistributeEndpoints(names)];
      var deployed := Clamp(a.deployed, |names|);
      CandidatesUnrecorded(cfg, endpoints, a, pf, results);
      sum := Attribute(names, deployed, sum, hidden);
      missed := Missed(names, deployed);
      DistributionDone(cfg, endpoints, a, pf, names, deployed, old(results), results, missed);
    }

    predicate IsRemote(m: string) { m in endpoints && endpoints[m].remote }

    /** Remote endpoints that nothing else has taken care of are taken as they are. */
    method TakeRemaining(sum0: Summary, ghost hidden: set<string>, ghost spared: set<string>) returns (sum: Summary)
      requires Accounts(results, sum0, hidden, spared)
      modifies this`results
      ensures forall m :: Entry(results, m) == Taken(old(results), m, IsRemote(m))
      ensures Accounts(results, sum, hidden, spared)
    {
      hide Accounts;
      sum := sum0;
      var todo := endpoints.Keys;
      while todo != {}
        invariant todo <= endpoints.Keys
        invariant forall m :: Entry(results, m) == Taken(old(results), m, IsRemote(m) && m !in todo)
        invariant Accounts(results, sum, hidden, spared)
        decreases todo
      {
        var n :| n in todo;
        assert Entry(results, n) == Entry(old(results), n);
        todo := todo - {n};
        if n !in results && endpoints[n].remote {
          RecordNew(results, sum, hidden, spared, n, Remote);
          results := results[n := Remote];
          sum := Counted(sum, Remote, 1);
        }
      }
    }

    /** The health phase: a required endpoint that is unhealthy fails, unless it has failed already. */
    method CheckHealth(a: Answers, sum0: Summary, ghost hidden: set<string>, ghost spared: set<string>)
      returns (sum: Summary)
      requires Accounts(results, sum0, hidden, spared)
      modifies this`results
      ensures forall m :: Entry(results, m) == Checked(old(results), m, Condemned(cfg, endpoints, a, m))
      ensures Accounts(results, sum, hidden, spared)
    {
      hide Accounts;
      sum := sum0;
      var todo := if cfg.healthChecker then set n | n in a.unhealthy && n in endpoints && endpoints[n].enabled else {};
      ghost var done := {};
      while todo != {}
        invariant todo <= endpoints.Keys
        invariant forall m :: Condemned(cfg, endpoints, a, m) <==> m in done || (m in todo && endpoints[m].required)
        invariant forall m :: Entry(results, m) == Checked(old(results), m, m in done)
        invariant Accounts(results, sum, hidden, spared)
        decreases todo
      {
        var n :| n in todo;
        todo := todo - {n};
        if endpoints[n].required {
          if Entry(results, n) != Some(Failed) {
            sum := Condemn(n, sum, hidden, spared);
          }
          done := done + {n};
        }
      }
    }

    /** Turn one result into a failure and move it from its own counter. */
    method Condemn(n: string, sum0: Summary, ghost hidden: set<string>, ghost spared: set<string>)
      returns (sum: Summary)
      requires Accounts(results, sum0, hidden, spared) && Entry(results, n) != Some(Failed)
      modifies this`results
      ensures results == old(results)[n := Failed]
      ensures Accounts(results, sum, hidden, spared)
    {
      sum := sum0;
      if n in results {
        RecordFailure(results, sum, hidden, spared, n);
        sum := Counted(sum, results[n], -1);
      } else {
        RecordNew(results, sum, hidden, spared, n, Failed);
      }
      results := results[n := Failed];
      sum := Counted(sum, Failed, 1);
    }

    /** Distribution, and then the remote endpoints it leaves. */
    method DistributionPhase(a: Answers, sum0: Summary, ghost pf: Profiles)
      returns (sum: Summary, cmds: seq<Command>, ghost missed: set<string>)
      requires Settled(AfterCompose, cfg, endpoints, a, pf, {}, results, sum0)
      modifies this`results
      ensures Settled(AfterDistribution, cfg, endpoints, a, pf, missed, results, sum)
      ensures Handed(cfg, endpoints, a, cmds)
    {
      hide Accounts;
      ghost var hidden := HiddenAt(AfterCompose, cfg, endpoints, a, pf);
      sum, cmds, missed := DistributeRemote(a, sum0, pf, hidden);
      ghost var distributed := results;
      sum := TakeRemaining(sum, hidden, Spared(endpoints, missed));
      RemainingTaken(cfg, endpoints, a, pf, missed, distributed, results);
    }

    method HealthPhase(a: Answers, sum0: Summary, ghost pf: Profiles, ghost missed: set<string>) returns (sum: Summary)
      requires Settled(AfterDistribution, cfg, endpoints, a, pf, missed, results, sum0)
      modifies this`results
      ensures Settled(AfterHealth, cfg, endpoints, a, pf, missed, results, sum)
    {
      hide Accounts;
      ghost var hidden := HiddenAt(AfterHealth, cfg, endpoints, a, pf);
      sum := CheckHealth(a, sum0, hidden, Spared(endpoints, missed));
      HealthChecked(cfg, endpoints, a, pf, missed, old(results), results);
    }

    /** Undistribute first, then take the projects down, last one first. */
    method RollBack(booted: seq<Project>, distributed: bool, ghost cmds: seq<Command>)
      requires booted == Booted(cmds) && (distributed <==> Invoked(cmds))
      requires (distributed ==> cfg.distributor) && (booted != [] ==> cfg.orchestrator)
      modifies this`trace
      ensures trace == old(trace) + Rollback(cmds)
    {
      if distributed && cfg.distributor { trace := trace + [Undistribute]; }
      if !cfg.orchestrator || |booted| == 0 { return; }
      ghost var before := trace;
      var i := |booted|;
      while i > 0
        invariant 0 <= i <= |booted|
        invariant trace == before + DownsInReverse(booted[i..])
      {
        i := i - 1;
        assert DownsInReverse(booted[i..]) == DownsInReverse(booted[i + 1..]) + [Down(booted[i])];
        trace := trace + [Down(booted[i])];
      }
      assert booted[0..] == booted;
    }

    /**
     * The whole boot. `forward` are the commands issued before any rollback, `pf` the profiles the compose
     * groups were brought up with, `missed` the endpoints the distributor was given and did not deploy.
     */
    method BootAll(a: Answers)
      returns (sum: Summary, err: bool, ghost forward: seq<Command>, ghost pf: Profiles, ghost missed: set<string>)
      modifies this
      ensures Settled(Reached(a), cfg, endpoints, a, pf, missed, results, sum)
      ensures err <==> a.cancelled1 || a.cancelled2 || a.cancelled3 || sum.failed > 0
      ensures Issued(Reached(a), cfg, endpoints, a, pf, forward)
      ensures trace == old(trace) + forward + if err then Rollback(forward) else []
    {
      hide Settled, Climbing, Handed, Issued, Rollback, Booted, Invoked;
      missed, forward, pf := {}, [], map[];
      sum := Discover(a);
      NothingIssued(cfg, endpoints, a);
      if a.cancelled1 {
        RollBack([], false, forward);
        return sum, true, forward, pf, missed;
      }
      var booted, cmds;
      sum, booted, cmds, pf := Compose(a, sum);
      trace, forward := trace + cmds, cmds;
      UpsIssued(cfg, endpoints, a, pf, cmds, booted);
      if a.cancelled2 {
        RollBack(booted, false, forward);
        return sum, true, forward, pf, missed;
      }
      var handed;
      sum, handed, missed := DistributionPhase(a, sum, pf);
      trace, forward := trace + handed, cmds + handed;
      assert trace == old(trace) + forward;
      AllIssued(cfg, endpoints, a, pf, cmds, booted, handed);
      if a.cancelled3 {
        RollBack(booted, handed != [], forward);
        return sum, true, forward, pf, missed;
      }
      sum := HealthPhase(a, sum, pf, missed);
      err := sum.failed > 0;
      if err { RollBack(booted, handed != [], forward); }
    }
  }

  lemma NothingIssued(cfg: Config, eps: Endpoints, a: Answers)
    ensures Issued(AfterDiscovery, cfg, eps, a, map[], []) && Booted([]) == [] && !Invoked([])
  {
  }

  lemma UpsIssued(cfg: Config, eps: Endpoints, a: Answers, pf: Profiles, ups: seq<Command>, booted: seq<Project>)
    requires Climbing(a, pf, ups, booted) && pf.Keys == ComposeFiles(cfg, eps)
    ensures Issued(AfterCompose, cfg, eps, a, pf, ups)
    ensures booted == Booted(ups) && !Invoked(ups) && (booted != [] ==> cfg.orchestrator)
  {
    assert ups == ups + [];
  }

  lemma AllIssued(cfg: Config, eps: Endpoints, a: Answers, pf: Profiles, ups: seq<Command>, booted: seq<Project>,
                  handed: seq<Command>)
    requires Climbing(a, pf, ups, booted) && Handed(cfg, eps, a, handed)
    ensures Issued(AfterDistribution, cfg, eps, a, pf, ups + handed)
    ensures Issued(AfterHealth, cfg, eps, a, pf, ups + handed)
    ensures booted == Booted(ups + handed) && (Invoked(ups + handed) <==> handed != [])
    ensures handed != [] ==> cfg.distributor
  {
    if handed == [] {
      assert ups + handed == ups;
    } else {
      assert handed == [handed[0]];
      BootedExtends(ups, handed[0]);
    }
  }

  /** What is handed to the distributor: nothing, or all the candidates in one call. */
  ghost predicate Handed(cfg: Config, eps: Endpoints, a: Answers, cmds: seq<Command>) {
    if Candidates(cfg, eps, a) == {} then cmds == []
    else
      && |cmds| == 1 && cmds[0].DistributeEndpoints? && Distinct(cmds[0].names)
      && (forall n :: n in cmds[0].names <==> n in Candidates(cfg, eps, a))
  }

  lemma NoUpYet(a: Answers)
    ensures Climbing(a, map[], [], [])
  {
  }

  lemma AllComposed(cfg: Config, eps: Endpoints, a: Answers, pf: Profiles, results: Results, sum: Summary,
                    hidden: set<string>)
    requires Composed(cfg, eps, a, pf, results, sum, hidden)
    requires forall f :: f in pf <==> f in ComposeFiles(cfg, eps)
    ensures Settled(AfterCompose, cfg, eps, a, pf, {}, results, sum) && Chosen(cfg, eps, pf)
  {
    hide Accounts, Status2, Hidden;
    assert pf.Keys == ComposeFiles(cfg, eps);
  }

  lemma UpNoted(a: Answers, pf: Profiles, cmds: seq<Command>, booted: seq<Project>, project: Project)
    requires Climbing(a, pf, cmds, booted) && project.file !in pf
    ensures var c := Up(project, a.comesUp(project));
      Climbing(a, pf[project.file := project.profile], cmds + [c], booted + if c.ok then [project] else [])
  {
    var c := Up(project, a.comesUp(project));
    var cmds', pf' := cmds + [c], pf[project.file := project.profile];
    BootedExtends(cmds, c);
    hide Booted;
    assert |pf'| == |pf| + 1 by { assert pf'.Keys == pf.Keys + {project.file}; }
    forall d <- cmds' ensures Brings(a, pf', d) { assert d == c || Brings(a, pf, d); }
    forall f <- pf' ensures Up(Project(f, pf'[f]), ComesUp(a, pf', f)) in cmds' {
      if f == project.file { assert c in cmds'; } else { assert Up(Project(f, pf[f]), ComesUp(a, pf, f)) in cmds; }
    }
  }

  lemma OfferedGrows(eps: Endpoints, pf: Profiles, project: Project)
    requires Offered(eps, pf) && Offers(eps, Group(eps, project.file), project.profile)
    ensures Offered(eps, pf[project.file := project.profile])
  {
  }

  lemma NothingComposed(cfg: Config, eps: Endpoints, a: Answers, results: Results, sum: Summary)
    requires Settled(AfterDiscovery, cfg, eps, a, map[], {}, results, sum)
    ensures Composed(cfg, eps, a, map[], results, sum, {})
  {
  }

  lemma RemainingTaken(cfg: Config, eps: Endpoints, a: Answers, pf: Profiles, missed: set<string>,
                      before: Results, after: Results)
    requires before.Keys <= eps.Keys
    requires forall n <- eps :: Entry(before, n) == Status3(cfg, eps, a, pf, missed, n)
    requires forall n :: Entry(after, n) == Taken(before, n, n in eps && eps[n].remote)
    ensures after.Keys <= eps.Keys
    ensures forall n <- eps :: Entry(after, n) == Status4(cfg, eps, a, pf, missed, n)
  {
    forall n <- after ensures n in eps {
      assert Entry(after, n) == Taken(before, n, n in eps && eps[n].remote);
    }
  }

  lemma HealthChecked(cfg: Config, eps: Endpoints, a: Answers, pf: Profiles, missed: set<string>,
                      before: Results, after: Results)
    requires before.Keys <= eps.Keys
    requires forall n <- eps :: Entry(before, n) == Status4(cfg, eps, a, pf, missed, n)
    requires forall n :: Entry(after, n) == Checked(before, n, Condemned(cfg, eps, a, n))
    ensures after.Keys <= eps.Keys
    ensures forall n <- eps :: Entry(after, n) == Status5(cfg, eps, a, pf, missed, n)
  {
    forall n <- after ensures n in eps {
      assert Entry(after, n) == Checked(before, n, Condemned(cfg, eps, a, n));
    }
  }

  /** How far a run gets. */
  datatype Stage = AfterDiscovery | AfterCompose | AfterDistribution | AfterHealth

  function Reached(a: Answers): Stage {
    if a.cancelled1 then AfterDiscovery
    else if a.cancelled2 then AfterCompose
    else if a.cancelled3 then AfterDistribution
    else AfterHealth
  }

  ghost function StatusAt(stage: Stage, cfg: Config, eps: Endpoints, a: Answers, pf: Profiles, missed: set<string>,
                          n: string): Option<Status>
    requires n in eps
  {
    match stage
    case AfterDiscovery => Status1(cfg, a, n, eps[n])
    case AfterCompose => Status2(cfg, a, pf, n, eps[n])
    case AfterDistribution => Status4(cfg, eps, a, pf, missed, n)
    case AfterHealth => Status5(cfg, eps, a, pf, missed, n)
  }

  ghost function HiddenAt(stage: Stage, cfg: Config, eps: Endpoints, a: Answers, pf: Profiles): set<string> {
    if stage.AfterDiscovery? then {} else Hidden(cfg, eps, a, pf)
  }

  ghost function SparedAt(stage: Stage, eps: Endpoints, missed: set<string>): set<string> {
    if stage.AfterDiscovery? || stage.AfterCompose? then {} else Spared(eps, missed)
  }

  /** The recorded results, which nothing before the run has a say in, and the counters against them. */
  ghost predicate Settled(stage: Stage, cfg: Config, eps: Endpoints, a: Answers, pf: Profiles, missed: set<string>,
                          results: Results, sum: Summary)
  {
    && results.Keys <= eps.Keys
    && (!stage.AfterDiscovery? ==> Chosen(cfg, eps, pf))
    && (forall n <- eps :: Entry(results, n) == StatusAt(stage, cfg, eps, a, pf, missed, n))
    && (stage.AfterDistribution? || stage.AfterHealth? ==> Shortfall(cfg, eps, a, missed))
    && Accounts(results, sum, HiddenAt(stage, cfg, eps, a, pf), SparedAt(stage, eps, missed))
  }

  /** No counter is ever negative. */
  lemma CountersNonNegative(results: Results, sum: Summary, hidden: set<string>, spared: set<string>)
    requires Accounts(results, sum, hidden, spared)
    ensures sum.started >= 0 && sum.remote >= 0 && sum.discovered >= 0 && sum.failed >= 0 && sum.skipped >= 0
  {
    SubsetCount(spared, With(results, Failed));
  }

  lemma {:induction false} SubsetCount(a: set<string>, b: set<string>)
    requires a <= b
    ensures |a| <= |b|
  {
    if a == {} {
    } else {
      var x :| x in a;
      SubsetCount(a - {x}, b - {x});
    }
  }

  /** The forward commands: one Up per compose file, then one distribution when there is something to distribute. */
  ghost predicate Issued(stage: Stage, cfg: Config, eps: Endpoints, a: Answers, pf: Profiles, cmds: seq<Command>) {
    if stage.AfterDiscovery? then cmds == []
    else
      exists ups, handed :: cmds == ups + handed && Climbing(a, pf, ups, Booted(ups)) &&
        if stage.AfterCompose? then handed == [] else Handed(cfg, eps, a, handed)
  }

  ghost function Taken(before: Results, m: string, remote: bool): Option<Status> {
    if m !in before && remote then Some(Remote) else Entry(before, m)
  }

  ghost function Checked(before: Results, m: string, condemned: bool): Option<Status> {
    if condemned then Some(Failed) else Entry(before, m)
  }

  /** The endpoints the health phase fails. */
  ghost predicate Condemned(cfg: Config, eps: Endpoints, a: Answers, n: string) {
    cfg.healthChecker && n in a.unhealthy && n in eps && eps[n].enabled && eps[n].required
  }

  function Clamp(deployed: int, n: nat): (r: nat)
    ensures r <= n
  {
    if deployed < 0 then 0 else if deployed > n then n else deployed
  }

  /** As many candidates are missed as the distributor's report falls short of them. */
  ghost predicate Shortfall(cfg: Config, eps: Endpoints, a: Answers, missed: set<string>) {
    missed <= Candidates(cfg, eps, a) &&
    |missed| == |Candidates(cfg, eps, a)| - Clamp(a.deployed, |Candidates(cfg, eps, a)|)
  }

  ghost function Missed(names: seq<string>, deployed: nat): set<string> {
    set j | deployed <= j < |names| :: names[j]
  }

  lemma {:induction false} CandidatesListed(cands: set<string>, names: seq<string>)
    requires Distinct(names) && forall n :: n in names <==> n in cands
    ensures |cands| == |names|
  {
    if names == [] {
      assert cands == {};
    } else {
      var n := |names| - 1;
      assert names[..n] + [names[n]] == names;
      CandidatesListed(cands - {names[n]}, names[..n]);
    }
  }

  lemma {:induction false} MissedCount(names: seq<string>, deployed: nat)
    requires Distinct(names) && deployed <= |names|
    ensures |Missed(names, deployed)| == |names| - deployed
    decreases |names| - deployed
  {
    if deployed < |names| {
      MissedCount(names, deployed + 1);
      assert Missed(names, deployed) == Missed(names, deployed + 1) + {names[deployed]};
    }
  }

  lemma MissedAt(names: seq<string>, deployed: nat)
    requires Distinct(names)
    ensures forall j :: 0 <= j < |names| ==> (names[j] in Missed(names, deployed) <==> deployed <= j)
    ensures forall n <- Missed(names, deployed) :: n in names
  {
  }

  /** Without candidates nothing is missed and nothing changes. */
  lemma NothingMissed(cfg: Config, eps: Endpoints, a: Answers, pf: Profiles)
    ensures Spared(eps, {}) == {} && (!cfg.distributor ==> Candidates(cfg, eps, a) == {})
    ensures Candidates(cfg, eps, a) == {} ==> Shortfall(cfg, eps, a, {})
    ensures Candidates(cfg, eps, a) == {} ==>
      forall n <- eps :: Status3(cfg, eps, a, pf, {}, n) == Status2(cfg, a, pf, n, eps[n])
  {
  }

  /** The candidates are what has no result after the compose phase, whatever profiles were met. */
  lemma CandidateIff(cfg: Config, eps: Endpoints, a: Answers, pf: Profiles, n: string)
    requires pf.Keys == ComposeFiles(cfg, eps) && n in eps && cfg.distributor
    ensures n in Candidates(cfg, eps, a) <==> Status2(cfg, a, pf, n, eps[n]).None? && eps[n].remote && eps[n].enabled
  {
    assert "" !in ComposeFiles(cfg, eps);
  }

  lemma CandidatesUnrecorded(cfg: Config, eps: Endpoints, a: Answers, pf: Profiles, results: Results)
    requires pf.Keys == ComposeFiles(cfg, eps)
    requires forall n <- eps :: Entry(results, n) == Status2(cfg, a, pf, n, eps[n])
    ensures forall n <- Candidates(cfg, eps, a) :: n in eps && n !in results
  {
    forall n <- Candidates(cfg, eps, a) ensures n in eps && n !in results {
      assert Entry(results, n) == Status2(cfg, a, pf, n, eps[n]);
      CandidateIff(cfg, eps, a, pf, n);
    }
  }

  lemma DistributionDone(cfg: Config, eps: Endpoints, a: Answers, pf: Profiles, names: seq<string>, deployed: nat,
                         before: Results, after: Results, missed: set<string>)
    requires Distinct(names) && deployed == Clamp(a.deployed, |names|)
    requires forall n :: n in names <==> n in Candidates(cfg, eps, a)
    requires before.Keys <= eps.Keys && forall n <- names :: n in eps && n !in before
    requires forall n <- eps :: Entry(before, n) == Status2(cfg, a, pf, n, eps[n])
    requires after == Attributed(before, names, deployed, |names|) && missed == Missed(names, deployed)
    ensures after.Keys <= eps.Keys
    ensures forall n <- eps :: Entry(after, n) == Status3(cfg, eps, a, pf, missed, n)
    ensures Shortfall(cfg, eps, a, missed)
    ensures SparedUpTo(eps, names, deployed, |names|) == Spared(eps, missed)
  {
    hide Status2, Candidates, Attributed, SparedUpTo, Missed, Spared;
    CandidatesListed(Candidates(cfg, eps, a), names);
    MissedCount(names, deployed);
    MissedAt(names, deployed);
    SparedDone(eps, names, deployed);
    AttributedSoFar(before, names, deployed, |names|);
    forall n <- eps ensures Entry(after, n) == Status3(cfg, eps, a, pf, missed, n) {
      AttributedEntry(before, names, deployed, n);
    }
  }

  lemma SparedDone(eps: Endpoints, names: seq<string>, deployed: nat)
    requires Distinct(names) && deployed <= |names| && forall n <- names :: n in eps
    ensures SparedUpTo(eps, names, deployed, |names|) == Spared(eps, Missed(names, deployed))
  {
    hide SparedUpTo;
    SparedSoFar(eps, names, deployed, |names|);
    MissedAt(names, deployed);
  }

  /** What the attribution makes of one endpoint. */
  lemma AttributedEntry(before: Results, names: seq<string>, deployed: nat, n: string)
    requires Distinct(names) && deployed <= |names| && forall m <- names :: m !in before
    ensures Entry(Attributed(before, names, deployed, |names|), n) ==
      if n in names then Some(DeployStatus(n !in Missed(names, deployed))) else Entry(before, n)
  {
    hide Attributed, Missed;
    AttributedSoFar(before, names, deployed, |names|);
    MissedAt(names, deployed);
    if n in names {
      var j :| 0 <= j < |names| && names[j] == n;
    }
  }

  /** The results once the first `k` names have been attributed. */
  ghost function Attributed(results: Results, names: seq<string>, deployed: nat, k: nat): Results
    requires k <= |names|
  {
    if k == 0 then results
    else Attributed(results, names, deployed, k - 1)[names[k - 1] := DeployStatus(k - 1 < deployed)]
  }

  /** Among the first `k` names, the optional ones beyond the deployed count. */
  ghost function SparedUpTo(eps: Endpoints, names: seq<string>, deployed: nat, k: nat): set<string>
    requires k <= |names| && forall n <- names :: n in eps
  {
    if k == 0 then {}
    else
      var last := if k - 1 < deployed || eps[names[k - 1]].required then {} else {names[k - 1]};
      SparedUpTo(eps, names, deployed, k - 1) + last
  }

  lemma {:induction false} AttributedSoFar(results: Results, names: seq<string>, deployed: nat, k: nat)
    requires Distinct(names) && k <= |names| && forall n <- names :: n !in results
    ensures var r := Attributed(results, names, deployed, k);
      && (forall n <- results :: n in r && r[n] == results[n])
      && (forall n <- r :: n in results || n in names)
      && (forall j :: k <= j < |names| ==> names[j] !in r)
      && (forall j :: 0 <= j < k ==> names[j] in r && r[names[j]] == DeployStatus(j < deployed))
  {
    if k == 0 {
    } else {
      AttributedSoFar(results, names, deployed, k - 1);
      assert forall j :: 0 <= j < |names| && j != k - 1 ==> names[j] != names[k - 1];
    }
  }

  lemma AttributeStep(results: Results, eps: Endpoints, names: seq<string>, deployed: nat, i: nat,
                      sum: Summary, hidden: set<string>)
    requires Distinct(names) && i < |names| && forall n <- names :: n in eps && n !in results
    requires Accounts(Attributed(results, names, deployed, i), sum, hidden, SparedUpTo(eps, names, deployed, i))
    ensures Accounts(Attributed(results, names, deployed, i + 1),
      DeploymentCounted(sum, i < deployed, eps[names[i]].required), hidden, SparedUpTo(eps, names, deployed, i + 1))
  {
    AttributedSoFar(results, names, deployed, i);
    RecordDeployment(Attributed(results, names, deployed, i), sum, hidden, SparedUpTo(eps, names, deployed, i),
      names[i], i < deployed, eps[names[i]].required);
  }

  lemma {:induction false} SparedSoFar(eps: Endpoints, names: seq<string>, deployed: nat, k: nat)
    requires Distinct(names) && k <= |names| && forall n <- names :: n in eps
    ensures forall n <- SparedUpTo(eps, names, deployed, k) :: n in names
    ensures forall j :: 0 <= j < |names| ==>
      (names[j] in SparedUpTo(eps, names, deployed, k) <==> deployed <= j < k && !eps[names[j]].required)
  {
    if k == 0 {
    } else {
      SparedSoFar(eps, names, deployed, k - 1);
      assert forall j :: 0 <= j < |names| && j != k - 1 ==> names[j] != names[k - 1];
    }
  }

  function DeployStatus(up: bool): Status { if up then Distributed else Failed }

  /** A deployment counts as remote; a shortfall counts as failed only when the endpoint is required. */
  function DeploymentCounted(sum: Summary, up: bool, required: bool): Summary {
    if up then sum.(remote := sum.remote + 1) else if required then sum.(failed := sum.failed + 1) else sum
  }

  lemma RecordDeployment(results: Results, sum: Summary, hidden: set<string>, spared: set<string>,
                         n: string, up: bool, required: bool)
    requires Accounts(results, sum, hidden, spared) && n !in results
    ensures Accounts(results[n := DeployStatus(up)], DeploymentCounted(sum, up, required), hidden,
      spared + if up || required then {} else {n})
  {
    if up { RecordNew(results, sum, hidden, spared, n, Distributed); }
    else if required { RecordNew(results, sum, hidden, spared, n, Failed); }
    else { RecordSpared(results, sum, hidden, spared, n); }
    if up || required { assert spared + {} == spared; }
  }

  /** Results, counters and overwritten endpoints once the compose groups with a chosen profile have been tried. */
  ghost predicate Composed(cfg: Config, eps: Endpoints, a: Answers, pf: Profiles,
                           results: Results, sum: Summary, hidden: set<string>)
  {
    && results.Keys <= eps.Keys && Offered(eps, pf)
    && (forall n <- eps :: Entry(results, n) == Status2(cfg, a, pf, n, eps[n]))
    && hidden == Hidden(cfg, eps, a, pf)
    && Accounts(results, sum, hidden, {})
  }

  /** What trying its group makes of an endpoint. */
  function Tried(before: Results, n: string, ep: Endpoint, up: bool): Option<Status> {
    if !up then Some(Failed)
    else if n in before then Entry(before, n)
    else Some(if ep.remote then Remote else Started)
  }

  /** One more compose file tried: its members, and nobody else, move on. */
  lemma FileTried(cfg: Config, eps: Endpoints, a: Answers, pf: Profiles, project: Project, before: Results,
                  after: Results, hidden: set<string>, hidden': set<string>)
    requires project.file !in pf && project.file != "" && hidden == Hidden(cfg, eps, a, pf)
    requires var group := Group(eps, project.file);
      && before.Keys <= eps.Keys && after.Keys <= before.Keys + group
      && (forall n <- eps :: Entry(before, n) == Status2(cfg, a, pf, n, eps[n]))
      && (forall n <- eps ::
            Entry(after, n) == if n in group then Tried(before, n, eps[n], a.comesUp(project)) else Entry(before, n))
      && if a.comesUp(project) then hidden' == hidden
         else forall n :: n in hidden' <==> n in hidden || (n in group && n in before)
    ensures var pf' := pf[project.file := project.profile];
      && after.Keys <= eps.Keys
      && (forall n <- eps :: Entry(after, n) == Status2(cfg, a, pf', n, eps[n]))
      && hidden' == Hidden(cfg, eps, a, pf')
  {
  }
}
