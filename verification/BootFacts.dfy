/**
 * A boot read off the fields of its endpoints and the answers it got: what is recorded for each endpoint, what the
 * counters say, which commands were issued, and what a report of the distributor comes to.
 */
module BootFacts {
  import opened Prelude
  import opened Boot
  import opened BootVerdict

  // ------------------------------------------------------------------------------- results

  predicate Found(cfg: Config, a: Answers, n: string, ep: Endpoint) {
    ep.enabled && ep.discoverable && cfg.discoverer && n in a.found
  }

  /** The compose phase has run and the endpoint was part of it. */
  predicate InGroup(cfg: Config, a: Answers, ep: Endpoint) {
    !a.cancelled1 && cfg.orchestrator && ep.enabled && ep.composeFile != ""
  }

  /** Its group came up with the profile chosen for it. */
  predicate GroupIsUp(a: Answers, pf: Profiles, ep: Endpoint) {
    ep.composeFile in pf && a.comesUp(Project(ep.composeFile, pf[ep.composeFile]))
  }

  /** The distribution phase has run. */
  predicate Distributing(a: Answers) { !a.cancelled1 && !a.cancelled2 }

  /** Remote, and neither found nor in a compose group. */
  predicate Leftover(cfg: Config, a: Answers, n: string, ep: Endpoint) {
    ep.enabled && ep.remote && !Found(cfg, a, n, ep) && !InGroup(cfg, a, ep)
  }

  /** The health phase has run, and the endpoint is required and unhealthy. */
  predicate Sick(cfg: Config, a: Answers, n: string, ep: Endpoint) {
    && !a.cancelled1 && !a.cancelled2 && !a.cancelled3
    && cfg.healthChecker && n in a.unhealthy && ep.enabled && ep.required
  }

  lemma CandidateReads(cfg: Config, eps: Endpoints, a: Answers, n: string)
    ensures !a.cancelled1 ==>
      (n in Candidates(cfg, eps, a) <==> n in eps && cfg.distributor && Leftover(cfg, a, n, eps[n]))
  {
    if n in eps && eps[n].enabled && eps[n].composeFile != "" {
      assert cfg.orchestrator ==> eps[n].composeFile in ComposeFiles(cfg, eps);
    }
    assert "" !in ComposeFiles(cfg, eps);
  }

  /** Every status of a run that has got as far as the answers let it, each in terms of the endpoint's own fields. */
  lemma ResultReads(cfg: Config, eps: Endpoints, a: Answers, pf: Profiles, missed: set<string>, results: Results,
                    sum: Summary, n: string)
    requires Settled(Reached(a), cfg, eps, a, pf, missed, results, sum) && n in eps
    ensures var ep := eps[n];
      var found, grouped, up := Found(cfg, a, n, ep), InGroup(cfg, a, ep), GroupIsUp(a, pf, ep);
      var left, sick := Distributing(a) && Leftover(cfg, a, n, ep), Sick(cfg, a, n, ep);
      && (Entry(results, n) == Some(Skipped) <==> !ep.enabled)
      && (Entry(results, n) == Some(Discovered) <==> found && !sick && (grouped ==> up))
      && (Entry(results, n) == Some(Started) <==> grouped && up && !found && !ep.remote && !sick)
      && (Entry(results, n) == Some(Distributed) <==> left && cfg.distributor && n !in missed && !sick)
      && (Entry(results, n) == Some(Remote) <==>
            !sick && ((grouped && up && !found && ep.remote) || (left && !cfg.distributor)))
      && (Entry(results, n) == Some(Failed) <==>
            sick || (grouped && !up) || (left && cfg.distributor && n in missed))
  {
    hide Accounts, Candidates, Shortfall;
    CandidateReads(cfg, eps, a, n);
    ChosenReads(cfg, eps, a, pf, missed, results, sum, n);
    assert Entry(results, n) == StatusAt(Reached(a), cfg, eps, a, pf, missed, n);
  }

  lemma ChosenReads(cfg: Config, eps: Endpoints, a: Answers, pf: Profiles, missed: set<string>, results: Results,
                    sum: Summary, n: string)
    requires Settled(Reached(a), cfg, eps, a, pf, missed, results, sum) && n in eps
    ensures !a.cancelled1 && eps[n].enabled && eps[n].composeFile != "" ==>
      (eps[n].composeFile in pf <==> cfg.orchestrator)
  {
    hide Accounts, Candidates, Shortfall, StatusAt, Offered;
  }

  /** The profile a walk settles on: the first one that is not empty, or none if all are. */
  lemma {:induction false} FirstProfileReads(eps: Endpoints, walk: seq<string>)
    requires forall n <- walk :: n in eps
    ensures var p := FirstProfile(eps, walk);
      if forall i :: 0 <= i < |walk| ==> eps[walk[i]].profile == "" then p == ""
      else exists i :: 0 <= i < |walk| && p == eps[walk[i]].profile != "" &&
             forall j :: 0 <= j < i ==> eps[walk[j]].profile == ""
  {
    if walk == [] {
    } else {
      var n := |walk| - 1;
      FirstProfileReads(eps, walk[..n]);
      if FirstProfile(eps, walk[..n]) != "" {
        var i :| 0 <= i < n && FirstProfile(eps, walk[..n]) == eps[walk[..n][i]].profile != "" &&
          forall j :: 0 <= j < i ==> eps[walk[..n][j]].profile == "";
        assert walk[..n][i] == walk[i] && forall j :: 0 <= j < i ==> walk[..n][j] == walk[j];
      } else {
        assert forall j :: 0 <= j < n ==> eps[walk[..n][j]].profile == "";
        assert forall j :: 0 <= j < n ==> walk[..n][j] == walk[j];
      }
    }
  }

  // ------------------------------------------------------------------------------- counters

  /** The discovered endpoints that a failed group has overwritten. */
  ghost function Overwritten(cfg: Config, eps: Endpoints, a: Answers, pf: Profiles): set<string> {
    set n | n in eps && Found(cfg, a, n, eps[n]) && InGroup(cfg, a, eps[n]) && !GroupIsUp(a, pf, eps[n])
  }

  /** The optional endpoints that the distributor has left out. */
  ghost function LeftOut(eps: Endpoints, a: Answers, missed: set<string>): set<string> {
    set n | n in missed && n in eps && !eps[n].required && Distributing(a)
  }

  /**
   * Each counter counts the results of its kind; a discovered endpoint stays counted when its group fails, and an
   * optional one that was left out is not counted as failed.
   */
  lemma CountersRead(cfg: Config, eps: Endpoints, a: Answers, pf: Profiles, missed: set<string>, results: Results,
                     sum: Summary)
    requires Settled(Reached(a), cfg, eps, a, pf, missed, results, sum)
    ensures sum.skipped == |set n | n in results && results[n] == Skipped|
    ensures sum.started == |set n | n in results && results[n] == Started|
    ensures sum.remote == |set n | n in results && results[n] == Remote| +
      |set n | n in results && results[n] == Distributed|
    ensures sum.discovered == |set n | n in results && results[n] == Discovered| + |Overwritten(cfg, eps, a, pf)|
    ensures sum.failed == |set n | n in results && results[n] == Failed| - |LeftOut(eps, a, missed)|
  {
    hide StatusAt, Candidates, Shortfall, Offered;
    var hidden := HiddenAt(Reached(a), cfg, eps, a, pf);
    assert hidden == Overwritten(cfg, eps, a, pf) by {
      forall n ensures n in hidden <==> n in Overwritten(cfg, eps, a, pf) {
        if n in eps { ChosenReads(cfg, eps, a, pf, missed, results, sum, n); }
      }
    }
    assert SparedAt(Reached(a), eps, missed) == LeftOut(eps, a, missed);
    CountersAre(results, sum, hidden, SparedAt(Reached(a), eps, missed));
  }

  lemma CountersAre(results: Results, sum: Summary, hidden: set<string>, spared: set<string>)
    requires Accounts(results, sum, hidden, spared)
    ensures sum.skipped == |set n | n in results && results[n] == Skipped|
    ensures sum.started == |set n | n in results && results[n] == Started|
    ensures sum.remote == |set n | n in results && results[n] == Remote| +
      |set n | n in results && results[n] == Distributed|
    ensures sum.discovered == |set n | n in results && results[n] == Discovered| + |hidden|
    ensures sum.failed == |set n | n in results && results[n] == Failed| - |spared|
  {
    assert With(results, Skipped) == set n | n in results && results[n] == Skipped;
    assert With(results, Started) == set n | n in results && results[n] == Started;
    assert With(results, Remote) == set n | n in results && results[n] == Remote;
    assert With(results, Distributed) == set n | n in results && results[n] == Distributed;
    assert With(results, Discovered) == set n | n in results && results[n] == Discovered;
    assert With(results, Failed) == set n | n in results && results[n] == Failed;
  }

  // ------------------------------------------------------------------- what a report comes to

  /**
   * A report of nothing or less misses every candidate, a report of as many as there are or more misses none, and
   * one in between leaves exactly that many distributed.
   */
  lemma ReportReads(cfg: Config, eps: Endpoints, a: Answers, pf: Profiles, missed: set<string>, results: Results,
                    sum: Summary)
    requires Settled(AfterDistribution, cfg, eps, a, pf, missed, results, sum)
    ensures var cands := Candidates(cfg, eps, a);
      && missed <= cands
      && (a.deployed <= 0 ==> missed == cands)
      && (a.deployed >= |cands| ==> missed == {})
      && (0 <= a.deployed <= |cands| ==> |set n | n in results && results[n] == Distributed| == a.deployed)
  {
    hide StatusAt, Candidates, Accounts, Offered;
    var cands := Candidates(cfg, eps, a);
    DistributedCount(cfg, eps, a, pf, missed, results, sum);
    assert With(results, Distributed) == set n | n in results && results[n] == Distributed;
    if a.deployed <= 0 { FullSubset(missed, cands); }
  }

  lemma FullSubset(part: set<string>, whole: set<string>)
    requires part <= whole && |part| == |whole|
    ensures part == whole
  {
    assert whole == part + (whole - part);
    assert whole - part == {};
  }

  /** A boot whose distributor deploys nothing fails if one of the endpoints handed over is required. */
  lemma NothingDeployedFails(cfg: Config, eps: Endpoints, a: Answers, pf: Profiles, missed: set<string>,
                             results: Results, sum: Summary, n: string)
    requires Settled(AfterHealth, cfg, eps, a, pf, missed, results, sum) && a.deployed <= 0
    requires n in eps && cfg.distributor && eps[n].required && !a.cancelled1 && Leftover(cfg, a, n, eps[n])
    ensures sum.failed > 0
  {
    hide StatusAt, Candidates, Accounts, Offered;
    CandidateReads(cfg, eps, a, n);
    FullSubset(missed, Candidates(cfg, eps, a));
    FailedIffVerdict(cfg, eps, a, pf, missed, results, sum);
  }

  // ------------------------------------------------------------------------------- commands

  /** The projects that a run tries: one per compose file of an enabled endpoint. */
  ghost predicate Tries(cfg: Config, eps: Endpoints, a: Answers, pf: Profiles, p: Project) {
    && !a.cancelled1 && cfg.orchestrator && p.file in pf && p.profile == pf[p.file]
    && exists n <- eps :: eps[n].enabled && eps[n].composeFile == p.file != ""
  }

  /**
   * The commands before any rollback: each project tried once, with the orchestrator's answer; then at most one call
   * to the distributor, the last command, with every leftover endpoint once; and nothing else.
   */
  lemma CommandsRead(cfg: Config, eps: Endpoints, a: Answers, pf: Profiles, cmds: seq<Command>)
    requires Issued(Reached(a), cfg, eps, a, pf, cmds) && (!a.cancelled1 ==> Chosen(cfg, eps, pf))
    ensures forall p, ok :: Up(p, ok) in cmds <==> Tries(cfg, eps, a, pf, p) && ok == a.comesUp(p)
    ensures forall i :: 0 <= i < |cmds| ==> cmds[i].Up? || (cmds[i].DistributeEndpoints? && i == |cmds| - 1)
    ensures (exists i :: 0 <= i < |cmds| && cmds[i].DistributeEndpoints?) <==>
      Distributing(a) && cfg.distributor && exists n <- eps :: Leftover(cfg, a, n, eps[n])
    ensures forall i :: 0 <= i < |cmds| && cmds[i].DistributeEndpoints? ==>
      Distinct(cmds[i].names) && forall n :: n in cmds[i].names <==> n in eps && Leftover(cfg, a, n, eps[n])
  {
    hide Candidates, Offered, Climbing, Distinct;
    if !a.cancelled1 {
      var ups: seq<Command>, handed: seq<Command> :| cmds == ups + handed && Climbing(a, pf, ups, Booted(ups)) &&
        if Reached(a).AfterCompose? then handed == [] else Handed(cfg, eps, a, handed);
      UpsRead(cfg, eps, a, pf, ups);
      forall n ensures n in Candidates(cfg, eps, a) <==> n in eps && cfg.distributor && Leftover(cfg, a, n, eps[n]) {
        CandidateReads(cfg, eps, a, n);
      }
      assert |handed| <= 1 && forall c <- handed :: c.DistributeEndpoints?;
      forall i | 0 <= i < |cmds| ensures cmds[i] == if i < |ups| then ups[i] else handed[i - |ups|] {}
      assert forall i :: 0 <= i < |ups| ==> ups[i].Up?;
      if Candidates(cfg, eps, a) != {} && Distributing(a) { assert cmds[|ups|] == handed[0]; }
    }
  }

  lemma UpsRead(cfg: Config, eps: Endpoints, a: Answers, pf: Profiles, ups: seq<Command>)
    requires Climbing(a, pf, ups, Booted(ups)) && Chosen(cfg, eps, pf) && !a.cancelled1
    ensures forall p, ok :: Up(p, ok) in ups <==> Tries(cfg, eps, a, pf, p) && ok == a.comesUp(p)
    ensures forall c <- ups :: c.Up?
  {
    hide Booted, Offered;
    forall p, ok ensures Up(p, ok) in ups <==> Tries(cfg, eps, a, pf, p) && ok == a.comesUp(p) {
      assert p.file in pf <==> p.file in ComposeFiles(cfg, eps);
      if Up(p, ok) in ups { assert Brings(a, pf, Up(p, ok)); }
      if Tries(cfg, eps, a, pf, p) {
        assert p == Project(p.file, pf[p.file]) && ComesUp(a, pf, p.file) == a.comesUp(p);
      }
    }
    forall c <- ups ensures c.Up? { assert Brings(a, pf, c); }
  }

  /**
   * A rollback: Undistribute first if the distributor was called, then nothing but Downs, as many as Ups that worked,
   * each for a project that came up.
   */
  lemma RollbackReads(cmds: seq<Command>, j: nat)
    requires j < |Rollback(cmds)|
    ensures var called := exists c <- cmds :: c.DistributeEndpoints?;
      if j == 0 && called then Rollback(cmds)[j] == Undistribute
      else Rollback(cmds)[j].Down? && Up(Rollback(cmds)[j].project, true) in cmds
  {
    hide Booted;
    var skip := if Invoked(cmds) then 1 else 0;
    if j >= skip {
      var booted := Booted(cmds);
      assert Rollback(cmds)[j] == Down(booted[|booted| - 1 - (j - skip)]);
      BootedCameUp(cmds, booted[|booted| - 1 - (j - skip)]);
    }
  }

  lemma {:induction false} BootedCameUp(cmds: seq<Command>, p: Project)
    requires p in Booted(cmds)
    ensures Up(p, true) in cmds
  {
    if cmds == [] {
    } else {
      var n := |cmds| - 1;
      if p in Booted(cmds[..n]) { BootedCameUp(cmds[..n], p); }
    }
  }

  ghost function UpsThatWorked(cmds: seq<Command>): set<nat> {
    set i | 0 <= i < |cmds| && cmds[i].Up? && cmds[i].ok
  }

  /** There are as many Downs as there are Ups that worked. */
  lemma RollbackIsComplete(cmds: seq<Command>)
    ensures |Rollback(cmds)| == (if exists c <- cmds :: c.DistributeEndpoints? then 1 else 0) + |UpsThatWorked(cmds)|
  {
    hide UpsThatWorked, Booted;
    BootedNumber(cmds);
  }

  lemma {:induction false} BootedNumber(cmds: seq<Command>)
    ensures |Booted(cmds)| == |UpsThatWorked(cmds)|
  {
    if cmds == [] {
      assert UpsThatWorked(cmds) == {};
    } else {
      var n := |cmds| - 1;
      BootedNumber(cmds[..n]);
      UpsGrow(cmds[..n], cmds[n]);
      assert cmds == cmds[..n] + [cmds[n]];
      hide UpsThatWorked;
    }
  }

  lemma UpsGrow(cmds: seq<Command>, c: Command)
    ensures |UpsThatWorked(cmds + [c])| == |UpsThatWorked(cmds)| + if c.Up? && c.ok then 1 else 0
  {
    var before, after := UpsThatWorked(cmds), UpsThatWorked(cmds + [c]);
    forall i: nat ensures i in after <==> i in before || (i == |cmds| && c.Up? && c.ok) {
      if i < |cmds| { assert (cmds + [c])[i] == cmds[i]; }
    }
    if c.Up? && c.ok { assert after == before + {|cmds|}; } else { assert after == before; }
  }
}
