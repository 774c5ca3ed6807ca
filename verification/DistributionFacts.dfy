/**
 * What one operation of the distributor does, read off the fields of the decisions, the answers and the options:
 * which entries run, which instances are live, who is named in a failover or a failed teardown.
 */
module DistributionFacts {
  import opened Wiring
  import opened WiringFacts
  import opened Distribution

  /** The empty host name and "local" are this machine. */
  predicate Here(host: string) { host == "" || host == "local" }

  function Place(host: string): string { if Here(host) then "local" else host }

  /** What a command on the host needs. */
  predicate Commands(opts: Options, host: string, found: bool) {
    if Here(host) then opts.localRuntime else opts.executor && opts.hostManager && found
  }

  // -------------------------------------------------------------------------------- entries

  /** Everything a decision needs for its container to be up in the end. */
  ghost predicate Succeeds(opts: Options, links: Links, d: Decision, r: Replies, i: nat) {
    && !r.cancelled(i) && d.score != 0.0 && Commands(opts, d.host, r.found(i)) && r.started(i)
    && (!Here(d.host) ==>
          && (opts.tunnels ==> TunnelsFree(links.tunnels, d.req.ports, r.wiring(i).tunnel))
          && MountsFree(links.mounts, d.host, r.wiring(i)))
  }

  lemma UpIff(opts: Options, links: Links, d: Decision, r: Replies, i: nat)
    ensures OutcomeAt(opts, links, d, r, i).Up? <==> Succeeds(opts, links, d, r, i)
  {
    hide WireEnd, WirePorts, TunnelsFree, MountsFree, TakesDown;
    CompleteIff(links, d.host, opts.tunnels, d.req.ports, r.wiring(i));
  }

  /**
   * Entry `i` after a round: it has the requirement and the host of its decision, and it runs if and only if the
   * context was live, the score is not zero, the host can be commanded, the start worked and, on a remote host, every
   * port got a local port of its own and every volume was new and mounted. Otherwise it has failed; without an
   * attempt it records no tunnel.
   */
  lemma RunningIff(opts: Options, w: World, plan: seq<Decision>, r: Replies, i: nat)
    requires i < |plan|
    ensures var w' := Perform(opts, w, Round(plan, r));
      && |w'.containers| == |plan| && w'.containers[i].req == plan[i].req && w'.containers[i].host == plan[i].host
      && (w'.containers[i].state == Running <==> Succeeds(opts, LinksAt(opts, w.links, plan, r, i), plan[i], r, i))
      && (w'.containers[i].state == Running || w'.containers[i].state == Failed)
      && (r.cancelled(i) || plan[i].score == 0.0 ==> w'.containers[i].tunnelPorts == map[])
  {
    hide LiveAfter, LinksAt, Succeeds;
    var l := LinksAt(opts, w.links, plan, r, i);
    assert Outcomes(opts, w.links, plan, r)[i] == OutcomeAt(opts, l, plan[i], r, i);
    UpIff(opts, l, plan[i], r, i);
    UnattemptedIsSkipped(opts, l, plan[i], r, i);
  }

  lemma UnattemptedIsSkipped(opts: Options, links: Links, d: Decision, r: Replies, i: nat)
    ensures r.cancelled(i) || d.score == 0.0 <==> OutcomeAt(opts, links, d, r, i).Skipped?
    ensures r.cancelled(i) || d.score == 0.0 ==> LinksNext(opts, links, d, r, i) == links
  {
    hide WireEnd, WirePorts, Wire;
  }

  /** The tunnels open when decision `i` is reached: those of before, and those of the remote containers up by then. */
  lemma {:induction false} TunnelsBefore(opts: Options, links: Links, plan: seq<Decision>, r: Replies, i: nat,
                                         x: string)
    requires i <= |plan|
    ensures x in LinksAt(opts, links, plan, r, i).tunnels <==>
      || x in links.tunnels
      || exists j, p :: 0 <= j < i && 0 <= p < |plan[j].req.ports| && TunnelOf(opts, links, plan, r, j, p, x)
  {
    hide TunnelOf, LinksNext;
    if i == 0 {
    } else {
      TunnelsBefore(opts, links, plan, r, i - 1, x);
      TunnelsNext(opts, links, plan, r, i - 1, x);
    }
  }

  ghost predicate TunnelOf(opts: Options, links: Links, plan: seq<Decision>, r: Replies, j: nat, p: nat, x: string)
    requires j < |plan| && p < |plan[j].req.ports|
  {
    && opts.tunnels && !Here(plan[j].host) && Succeeds(opts, LinksAt(opts, links, plan, r, j), plan[j], r, j)
    && TunnelledAt(plan[j].req.ports, r.wiring(j).tunnel, p, x)
  }

  lemma TunnelsNext(opts: Options, links: Links, plan: seq<Decision>, r: Replies, j: nat, x: string)
    requires j < |plan|
    ensures x in LinksAt(opts, links, plan, r, j + 1).tunnels <==>
      || x in LinksAt(opts, links, plan, r, j).tunnels
      || exists p :: 0 <= p < |plan[j].req.ports| && TunnelOf(opts, links, plan, r, j, p, x)
  {
    hide Wire, WireEnd, WirePorts, TakesDown, Succeeds, TunnelledAt;
    var l, d := LinksAt(opts, links, plan, r, j), plan[j];
    var ports, answers := d.req.ports, r.wiring(j);
    UpIff(opts, l, d, r, j);
    assert LinksAt(opts, links, plan, r, j + 1) == LinksNext(opts, l, d, r, j);
    WireTunnels(l, d.host, opts.tunnels, ports, answers);
    forall p | 0 <= p < |ports|
      ensures TunnelOf(opts, links, plan, r, j, p, x) <==>
        OutcomeAt(opts, l, d, r, j).Up? && !Here(d.host) && opts.tunnels && TunnelledAt(ports, answers.tunnel, p, x)
    {
    }
    if Wires(opts, d, r, j) && EndAt(opts, l, d, r, j).Complete? {
      CompleteLeaves(l, d.host, opts.tunnels, ports, answers, x);
    } else {
      assert !OutcomeAt(opts, l, d, r, j).Up? || Here(d.host);
    }
  }

  // ------------------------------------------------------------------------------ instances

  /** An old placement at that place and under that name is taken down. */
  ghost predicate OldRemoved(opts: Options, cs: seq<Container>, removed: Instance -> TeardownReply, k: Instance) {
    exists c <- cs ::
      && (c.state == Running || c.state == Migrating) && (Place(c.host), c.req.name) == k
      && Commands(opts, c.host, removed(k).found) && removed(k).effective
  }

  lemma TakesDownReads(opts: Options, host: string, t: TeardownReply)
    ensures TakesDown(opts, host, t) <==> Commands(opts, host, t.found) && t.effective
    ensures TeardownFails(opts, host, t) <==> if Here(host) then opts.localRuntime && t.erred
      else !opts.executor || !opts.hostManager || !t.found || t.erred
  {
  }

  lemma TornDownReads(opts: Options, r: Replies, cs: seq<Container>, plan: seq<Decision>, outcomes: seq<Outcome>,
                      k: Instance)
    requires |plan| == |outcomes|
    ensures k in TornDown(opts, r, cs, plan, outcomes) <==>
      && OldRemoved(opts, cs, r.removed, k)
      && forall i :: 0 <= i < |plan| && DecisionKey(plan[i]) == k ==> outcomes[i].Skipped?
  {
    hide TakesDown;
    forall c <- cs ensures TakesDown(opts, c.host, r.removed(Key(c))) <==>
        Commands(opts, c.host, r.removed(Key(c)).found) && r.removed(Key(c)).effective
    {
      TakesDownReads(opts, c.host, r.removed(Key(c)));
    }
    forall c <- cs | Key(c) == k
      ensures Distribution.InPlace(c, plan, outcomes) <==>
        !forall i :: 0 <= i < |plan| && DecisionKey(plan[i]) == k ==> outcomes[i].Skipped?
    {
    }
  }

  /** Whether the instance of an attempted decision runs after its attempt, `before` telling whether it did before. */
  ghost predicate RunsAfter(opts: Options, links: Links, d: Decision, r: Replies, i: nat, before: bool) {
    if !Commands(opts, d.host, r.found(i)) then before
    else if !r.started(i) then before && (Here(d.host) || !r.cleared(i))
    else
      || Succeeds(opts, links, d, r, i)
      || !(r.undone(i).found && r.undone(i).effective)
  }

  lemma AttemptReads(opts: Options, links: Links, d: Decision, r: Replies, i: nat, live: set<Instance>)
    requires !r.cancelled(i) && d.score != 0.0
    ensures var o, k := OutcomeAt(opts, links, d, r, i), DecisionKey(d);
      (if o.Up? || o.Stranded? then true else if o.StartFailed? || o.WireFailed? then false else k in live) <==>
        RunsAfter(opts, links, d, r, i, k in live)
  {
    hide WireEnd, WirePorts, TakesDown, TunnelsFree, MountsFree;
    UpIff(opts, links, d, r, i);
    TakesDownReads(opts, d.host, r.undone(i));
    CompleteIff(links, d.host, opts.tunnels, d.req.ports, r.wiring(i));
  }

  /**
   * The instance of decision `i` after a round: without an attempt it runs if it did before and was not removed with an
   * old placement; a decision that cannot be commanded leaves it as it was; a start that fails leaves it as it was
   * here, and on a remote host unless the removal before the start took effect; a container that comes up runs, and
   * one that cannot be wired runs unless it is found and removed again.
   */
  lemma InstanceAfterRound(opts: Options, w: World, plan: seq<Decision>, r: Replies, i: nat)
    requires i < |plan| && UniquePlan(plan)
    ensures var k := (Place(plan[i].host), plan[i].req.name);
      k in Perform(opts, w, Round(plan, r)).live <==>
        if r.cancelled(i) || plan[i].score == 0.0 then k in w.live && !OldRemoved(opts, w.containers, r.removed, k)
        else RunsAfter(opts, LinksAt(opts, w.links, plan, r, i), plan[i], r, i, k in w.live)
  {
    hide LinksAt, TornDown, OldRemoved, RunsAfter, OutcomeAt;
    var outcomes, k := Outcomes(opts, w.links, plan, r), DecisionKey(plan[i]);
    var l := LinksAt(opts, w.links, plan, r, i);
    assert outcomes[i] == OutcomeAt(opts, l, plan[i], r, i);
    assert forall j :: 0 <= j < |plan| && DecisionKey(plan[j]) == k ==> j == i;
    TornDownReads(opts, r, w.containers, plan, outcomes, k);
    UnattemptedIsSkipped(opts, l, plan[i], r, i);
    if !(r.cancelled(i) || plan[i].score == 0.0) { AttemptReads(opts, l, plan[i], r, i, w.live); }
    LiveReads(opts, r, w.live, w.containers, plan, outcomes, i);
  }

  lemma LiveReads(opts: Options, r: Replies, live: set<Instance>, cs: seq<Container>, plan: seq<Decision>,
                  outcomes: seq<Outcome>, i: nat)
    requires |plan| == |outcomes| && i < |plan| && UniquePlan(plan)
    ensures var o, k := outcomes[i], DecisionKey(plan[i]);
      k in LiveAfter(opts, r, live, cs, plan, outcomes) <==>
        && (if o.Up? || o.Stranded? then true else if o.StartFailed? || o.WireFailed? then false else k in live)
        && k !in TornDown(opts, r, cs, plan, outcomes)
  {
    hide TornDown;
    var k := DecisionKey(plan[i]);
    assert forall j :: 0 <= j < |plan| && DecisionKey(plan[j]) == k ==> j == i;
  }

  /** Every other instance runs if it did before and was not removed with an old placement. */
  lemma OtherInstances(opts: Options, w: World, plan: seq<Decision>, r: Replies, k: Instance)
    requires forall i :: 0 <= i < |plan| ==> (Place(plan[i].host), plan[i].req.name) != k
    ensures k in Perform(opts, w, Round(plan, r)).live <==> k in w.live && !OldRemoved(opts, w.containers, r.removed, k)
  {
    hide LinksAt, TornDown, OldRemoved, OutcomeAt;
    var outcomes := Outcomes(opts, w.links, plan, r);
    assert forall i :: 0 <= i < |plan| ==> DecisionKey(plan[i]) == (Place(plan[i].host), plan[i].req.name);
    TornDownReads(opts, r, w.containers, plan, outcomes, k);
  }

  /** A round in which nothing is attempted opens and mounts nothing, starts nothing, and leaves only failed entries. */
  lemma NothingAttempted(opts: Options, w: World, plan: seq<Decision>, r: Replies)
    requires UniquePlan(plan) && forall i :: 0 <= i < |plan| ==> r.cancelled(i) || plan[i].score == 0.0
    ensures var w' := Perform(opts, w, Round(plan, r));
      w'.links == w.links && w'.live <= w.live && forall c <- w'.containers :: c.state == Failed
  {
    hide LinksAt, LiveAfter, Outcomes, OldRemoved, Placement;
    var w' := Perform(opts, w, Round(plan, r));
    LinksUntouched(opts, w.links, plan, r, |plan|);
    forall k | k in w'.live ensures k in w.live {
      if i :| 0 <= i < |plan| && (Place(plan[i].host), plan[i].req.name) == k {
        InstanceAfterRound(opts, w, plan, r, i);
      } else {
        OtherInstances(opts, w, plan, r, k);
      }
    }
    forall c <- w'.containers ensures c.state == Failed {
      var i :| 0 <= i < |w'.containers| && w'.containers[i] == c;
      NoneRuns(opts, w, plan, r, i);
    }
  }

  lemma NoneRuns(opts: Options, w: World, plan: seq<Decision>, r: Replies, i: nat)
    requires var n := |Perform(opts, w, Round(plan, r)).containers|;
      i < n && forall i :: 0 <= i < |plan| ==> r.cancelled(i) || plan[i].score == 0.0
    ensures Perform(opts, w, Round(plan, r)).containers[i].state == Failed
  {
    hide LinksAt, LiveAfter;
    assert i < |plan|;
    RunningIff(opts, w, plan, r, i);
  }

  lemma {:induction false} LinksUntouched(opts: Options, links: Links, plan: seq<Decision>, r: Replies, n: nat)
    requires n <= |plan| && forall i :: 0 <= i < n ==> r.cancelled(i) || plan[i].score == 0.0
    ensures LinksAt(opts, links, plan, r, n) == links
  {
    hide LinksNext;
    if n == 0 {
    } else {
      LinksUntouched(opts, links, plan, r, n - 1);
      UnattemptedIsSkipped(opts, links, plan[n - 1], r, n - 1);
    }
  }

  // ------------------------------------------------------------------------------- counters

  lemma {:induction false} CountsRead(cs: seq<Container>, here: bool)
    requires UniqueNames(cs) && forall c <- cs :: c.state == Running || c.state == Failed
    ensures |On(here, Tracked(cs))| == |Entries(cs, here)|
  {
    if cs == [] {
      assert Tracked(cs) == {} && Entries(cs, here) == {};
    } else {
      var n := |cs| - 1;
      var front, c := cs[..n], cs[n];
      assert forall e <- front :: e in cs;
      CountsRead(front, here);
      EntriesGrow(front, c, here);
      assert cs == front + [c];
      TrackedGrows(front, c);
      if c.state == Running {
        assert Key(c) !in Tracked(front) by { assert forall j :: 0 <= j < n ==> cs[j].req.name != c.req.name; }
        OnGrows(here, Tracked(front), Key(c));
      }
    }
  }

  /** A summary holds the placement, the numbers of running entries here and elsewhere, and that of all the others. */
  lemma SummaryReads(s: Summary, cs: seq<Container>)
    requires Counts(s, cs, |cs|) && UniqueNames(cs) && forall c <- cs :: c.state == Running || c.state == Failed
    ensures s.containers == cs && s.local == |Entries(cs, true)| && s.remote == |Entries(cs, false)|
    ensures s.failed == |cs| - |Entries(cs, true)| - |Entries(cs, false)|
  {
    hide Entries, On, Tracked;
    CountsRead(cs, true);
    CountsRead(cs, false);
  }

  ghost function Entries(cs: seq<Container>, here: bool): set<nat> {
    set i | 0 <= i < |cs| && cs[i].state == Running && (Here(cs[i].host) <==> here)
  }

  lemma EntriesGrow(cs: seq<Container>, c: Container, here: bool)
    ensures |Entries(cs + [c], here)| ==
      |Entries(cs, here)| + if c.state == Running && (Here(c.host) <==> here) then 1 else 0
  {
    var now, then_ := Entries(cs, here), Entries(cs + [c], here);
    assert forall i :: 0 <= i < |cs| ==> (cs + [c])[i] == cs[i];
    if c.state == Running && (Here(c.host) <==> here) {
      assert then_ == now + {|cs|};
    } else {
      assert then_ == now;
    }
  }

  lemma TrackedGrows(cs: seq<Container>, c: Container)
    requires c.state == Running || c.state == Failed
    ensures Tracked(cs + [c]) == if c.state == Running then Tracked(cs) + {Key(c)} else Tracked(cs)
  {
    forall k: Instance
      ensures k in Tracked(cs + [c]) <==> k in Tracked(cs) || (c.state == Running && Key(c) == k)
    {
      assert forall e :: e in cs + [c] <==> e in cs || e == c;
    }
  }

  // ------------------------------------------------------------------ failover and teardown

  /** The names of the placements whose teardown goes wrong, in the order they are tracked, and of no others. */
  lemma {:induction false} TeardownErrorsRead(opts: Options, down: Instance -> TeardownReply, cs: seq<Container>)
    returns (at: seq<nat>)
    ensures var failed := TeardownErrors(opts, down, cs);
      && |at| == |failed| && (forall i, j :: 0 <= i < j < |at| ==> at[i] < at[j])
      && (forall i :: 0 <= i < |at| ==> at[i] < |cs| && cs[at[i]].req.name == failed[i])
      && forall i :: 0 <= i < |cs| ==> (i in at <==> GoesWrong(opts, down, cs[i]))
  {
    if cs == [] {
      at := [];
    } else {
      var n := |cs| - 1;
      var c := cs[n];
      at := TeardownErrorsRead(opts, down, cs[..n]);
      TakesDownReads(opts, c.host, down(Key(c)));
      if GoesWrong(opts, down, c) { at := at + [n]; }
    }
  }

  predicate GoesWrong(opts: Options, down: Instance -> TeardownReply, c: Container) {
    var t := down((Place(c.host), c.req.name));
    && (c.state == Running || c.state == Migrating)
    && if Here(c.host) then opts.localRuntime && t.erred
       else !opts.executor || !opts.hostManager || !t.found || t.erred
  }

  /** The actions of a failover: one for each container on an offline host, in order, with the suggested host if any. */
  lemma {:induction false} AffectedRead(cs: seq<Container>, offline: set<string>) returns (at: seq<nat>)
    ensures var actions := AffectedOn(cs, offline);
      && |at| == |actions| && (forall i, j :: 0 <= i < j < |at| ==> at[i] < at[j])
      && (forall i :: 0 <= i < |at| ==>
            at[i] < |cs| && actions[i] == Action(cs[at[i]].req.name, cs[at[i]].host, ""))
      && forall i :: 0 <= i < |cs| ==> (i in at <==> cs[i].host in offline)
  {
    if cs == [] {
      at := [];
    } else {
      var n := |cs| - 1;
      at := AffectedRead(cs[..n], offline);
      var rest, a := AffectedOn(cs[..n], offline), Action(cs[n].req.name, cs[n].host, "");
      assert AffectedOn(cs, offline) == if cs[n].host in offline then rest + [a] else rest;
      if cs[n].host in offline { at := at + [n]; }
    }
  }

  /** A host is offline if and only if some container on it finds it so; this machine never is. */
  lemma OfflineReads(cs: seq<Container>, online: nat -> bool, h: string)
    ensures Offline(cs, online, h) <==> exists i :: 0 <= i < |cs| && cs[i].host == h && !Here(h) && !online(i)
  {
  }

  lemma RehostedReads(actions: seq<Action>, hosts: seq<string>, i: nat)
    requires i < |actions|
    ensures var a := Rehosted(actions, hosts);
      && |a| == |actions| && a[i].name == actions[i].name && a[i].host == actions[i].host
      && a[i].newHost == if i < |hosts| then hosts[i] else actions[i].newHost
  {
  }

  /**
   * A failover marks a container as migrating exactly when it is running and a container of its name is on an
   * offline host; every other field and entry stays as it is.
   */
  lemma FailoverReads(opts: Options, w: World, offline: set<string>, hosts: seq<string>, i: nat)
    requires i < |w.containers|
    ensures var names := ActionNames(Rehosted(AffectedOn(w.containers, offline), hosts));
      var w' := Perform(opts, w, Failover(names));
      && w'.live == w.live && w'.links == w.links && |w'.containers| == |w.containers|
      && var c := w.containers[i];
      w'.containers[i] == if c.state == Running && Affected(w.containers, offline, c.req.name)
                          then c.(state := Migrating) else c
  {
    var cs, actions := w.containers, AffectedOn(w.containers, offline);
    var name := cs[i].req.name;
    SameNames(actions, hosts);
    var at := AffectedRead(cs, offline);
    if j :| 0 <= j < |cs| && cs[j].req.name == name && cs[j].host in offline {
      var m :| 0 <= m < |at| && at[m] == j;
      assert actions[m] in actions && actions[m].name == name;
    }
    if name in ActionNames(actions) {
      var m :| 0 <= m < |actions| && actions[m].name == name;
      assert at[m] in at && cs[at[m]].host in offline;
    }
  }

  ghost predicate Affected(cs: seq<Container>, offline: set<string>, name: string) {
    exists j :: 0 <= j < |cs| && cs[j].req.name == name && cs[j].host in offline
  }

  /** An Undistribute: nothing tracked, no tunnel, and what ran still does unless a tracked placement is taken down. */
  lemma UndistributeReads(opts: Options, w: World, down: Instance -> TeardownReply, unmounted: string -> UnmountReply,
                          k: Instance, x: string)
    ensures var w' := Perform(opts, w, Undistribute(down, unmounted));
      && w'.containers == [] && w'.links.tunnels == {}
      && (k in w'.live <==> k in w.live && !OldRemoved(opts, w.containers, down, k))
      && (x in w'.links.mounts <==>
            x in w.links.mounts && !((w.links.mounts[x].mount.kind == Sshfs || w.links.mounts[x].mount.kind == Nfs) &&
            unmounted(x) == HostUnmounts))
  {
    hide TakesDown;
    forall c <- w.containers ensures TakesDown(opts, c.host, down(Key(c))) <==>
        Commands(opts, c.host, down(Key(c)).found) && down(Key(c)).effective
    {
      TakesDownReads(opts, c.host, down(Key(c)));
    }
  }
}
