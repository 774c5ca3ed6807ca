/** The distributor over whole histories: what runs, which tunnels are open, which volumes can come up. */
module DistributionHistory {
  import opened Wiring
  import opened Distribution

  ghost predicate Agree(w: World) { UniqueNames(w.containers) && w.live == Tracked(w.containers) }

  ghost predicate Clean(opts: Options, w: World, op: Operation) {
    match op
    case Round(plan, r) => CleanRound(opts, w.links, w.containers, plan, r)
    case Failover(_) => true
    case Undistribute(down, _) => AllTakenDown(opts, down, w.containers)
  }

  ghost predicate Sensible(op: Operation) { op.Round? ==> UniquePlan(op.plan) }

  lemma OperationExact(opts: Options, w: World, op: Operation)
    requires Agree(w) && Sensible(op)
    ensures Agree(Perform(opts, w, op)) <==> Clean(opts, w, op)
    ensures op.Undistribute? && Clean(opts, w, op) ==> Perform(opts, w, op).live == {}
  {
    hide CleanRound, LiveAfter, LinksAt, AfterUnmountAll;
    match op
    case Round(plan, r) =>
      var outcomes := Outcomes(opts, w.links, plan, r);
      PlacementUnique(plan, outcomes);
      RoundAgreesIffClean(opts, w.links, w.live, w.containers, plan, outcomes, r);
    case Failover(names) => FlipKeepsTeardown(w.containers, names);
    case Undistribute(down, _) => TeardownExact(opts, down, w.containers);
  }

  ghost predicate History(opts: Options, ws: seq<World>, ops: seq<Operation>) {
    && |ws| == |ops| + 1 && ws[0] == EMPTY
    && forall k {:trigger ops[k]} :: 0 <= k < |ops| ==> Sensible(ops[k]) && ws[k + 1] == Perform(opts, ws[k], ops[k])
  }

  /**
   * Over every history from an empty distributor: the containers live on hosts are the tracked
   * ones at every moment up to `n` exactly when each operation before it was clean; and then
   * nothing is live after an Undistribute.
   */
  lemma {:induction false} HistoryAgreesIffClean(opts: Options, ws: seq<World>, ops: seq<Operation>, n: nat)
    requires History(opts, ws, ops) && n <= |ops|
    ensures (forall k :: 0 <= k <= n ==> Agree(ws[k])) <==> (forall k :: 0 <= k < n ==> Clean(opts, ws[k], ops[k]))
    ensures (forall k :: 0 <= k < n ==> Clean(opts, ws[k], ops[k])) ==>
      forall k :: 0 <= k < n && ops[k].Undistribute? ==> ws[k + 1].live == {}
  {
    hide Clean, Perform;
    if n == 0 {
      assert Tracked([]) == {};
    } else {
      HistoryAgreesIffClean(opts, ws, ops, n - 1);
      if Agree(ws[n - 1]) { OperationExact(opts, ws[n - 1], ops[n - 1]); }
    }
  }

  // ------------------------------------------------------------------------------- tunnels

  /** The tunnels recorded with the placements that should be alive. */
  ghost function RecordedTunnels(cs: seq<Container>): set<string> {
    set c, p | c in cs && NeedsTeardown(c.state) && p in c.tunnelPorts :: c.tunnelPorts[p]
  }

  /** Every open tunnel is recorded with a tracked container, and every recorded one is open. */
  ghost predicate TunnelsAgree(w: World) { w.links.tunnels == RecordedTunnels(w.containers) }

  ghost function TunnelsAt(opts: Options, links: Links, plan: seq<Decision>, r: Replies, n: nat): set<string>
    requires n <= |plan|
  {
    LinksAt(opts, links, plan, r, n).tunnels
  }

  /** What decision `i` adds to the open tunnels. */
  ghost function Gained(opts: Options, links: Links, plan: seq<Decision>, r: Replies, i: nat): set<string>
    requires i < |plan|
  {
    TunnelsAt(opts, links, plan, r, i + 1) - TunnelsAt(opts, links, plan, r, i)
  }

  /** One decision: tunnels are only added, and only by a container that comes up, and only those are on record. */
  lemma DecisionTunnels(opts: Options, links: Links, d: Decision, r: Replies, i: nat)
    ensures var o, after := OutcomeAt(opts, links, d, r, i), LinksNext(opts, links, d, r, i).tunnels;
      && links.tunnels <= after
      && (!o.Up? ==> after == links.tunnels)
      && (o.Up? ==> LocalPorts(o.ports) <= after - links.tunnels)
      && (o.Up? ==> (LocalPorts(o.ports) == after - links.tunnels <==> RecordsAll(opts, d)))
  {
    hide Wire, WireEnd, WirePorts, TakesDown;
    if Wires(opts, d, r, i) {
      WireTunnels(links, d.host, opts.tunnels, d.req.ports, r.wiring(i));
      if EndAt(opts, links, d, r, i).Complete? {
        WiredRecords(links, d.host, opts.tunnels, d.req.ports, r.wiring(i));
      }
    } else {
      assert LocalPorts(map[]) == {};
    }
  }

  /** Whether every tunnel of a container that comes up is recorded: local ones have none. */
  ghost predicate RecordsAll(opts: Options, d: Decision) {
    opts.tunnels && NormHost(d.host) != "local" ==> RemotePortsDiffer(d.req.ports)
  }

  lemma WiredRecords(links: Links, host: string, tunnels: bool, ports: seq<PortMapping>, r: WireReplies)
    requires WireEnd(links, host, tunnels, ports, r).Complete?
    ensures var gained := Wire(links, host, tunnels, ports, r).tunnels - links.tunnels;
      var recorded := LocalPorts(WirePorts(links, tunnels, ports, r));
      recorded <= gained && (recorded == gained <==> (tunnels ==> RemotePortsDiffer(ports)))
  {
    hide OpenAfter, Recorded, MountedAfter, AfterRefusal, RemotePortsDiffer, MountFrom;
    if tunnels {
      FitFromIs(links.tunnels, ports, r.tunnel, 0);
      RecordedAreOpen(links.tunnels, ports, r.tunnel);
      RecordsAllIff(links.tunnels, ports, r.tunnel);
    } else {
      assert LocalPorts(map[]) == {};
    }
  }

  lemma {:induction false} TunnelsGrow(opts: Options, links: Links, plan: seq<Decision>, r: Replies, i: nat, n: nat)
    requires i <= n <= |plan|
    ensures TunnelsAt(opts, links, plan, r, i) <= TunnelsAt(opts, links, plan, r, n)
  {
    if i == n {
    } else {
      TunnelsGrow(opts, links, plan, r, i, n - 1);
      DecisionTunnels(opts, LinksAt(opts, links, plan, r, n - 1), plan[n - 1], r, n - 1);
    }
  }

  lemma {:induction false} GainedBy(opts: Options, links: Links, plan: seq<Decision>, r: Replies, n: nat, x: string)
    returns (i: nat)
    requires 0 < n <= |plan| && x in TunnelsAt(opts, links, plan, r, n) && x !in links.tunnels
    ensures i < n && x in Gained(opts, links, plan, r, i)
  {
    if x in TunnelsAt(opts, links, plan, r, n - 1) {
      i := GainedBy(opts, links, plan, r, n - 1, x);
    } else {
      i := n - 1;
    }
  }

  lemma GainedOnce(opts: Options, links: Links, plan: seq<Decision>, r: Replies, i: nat, j: nat, x: string)
    requires i < |plan| && j < |plan| && x in Gained(opts, links, plan, r, i) && x in Gained(opts, links, plan, r, j)
    ensures i == j && x !in links.tunnels
  {
    hide LinksAt;
    if i < j { TunnelsGrow(opts, links, plan, r, i + 1, j); }
    if j < i { TunnelsGrow(opts, links, plan, r, j + 1, i); }
    TunnelsGrow(opts, links, plan, r, 0, i);
    assert LinksAt(opts, links, plan, r, 0) == links by { NoLinksYet(opts, links, plan, r); }
  }

  lemma NoLinksYet(opts: Options, links: Links, plan: seq<Decision>, r: Replies)
    ensures LinksAt(opts, links, plan, r, 0) == links
  {
  }

  ghost predicate UpAt(opts: Options, links: Links, plan: seq<Decision>, r: Replies, i: nat)
    requires i < |plan|
  {
    OutcomeAt(opts, LinksAt(opts, links, plan, r, i), plan[i], r, i).Up?
  }

  /** The tunnels on record after a round are those of the containers that came up. */
  lemma RecordedAfter(opts: Options, links: Links, plan: seq<Decision>, r: Replies, x: string)
    ensures x in RecordedTunnels(Placement(plan, Outcomes(opts, links, plan, r))) <==>
      exists i :: 0 <= i < |plan| && UpAt(opts, links, plan, r, i) &&
                  x in LocalPorts(Outcomes(opts, links, plan, r)[i].ports)
  {
    hide OutcomeAt, LinksAt;
    var outcomes := Outcomes(opts, links, plan, r);
    var cs := Placement(plan, outcomes);
    forall i | 0 <= i < |plan| ensures outcomes[i].Up? <==> UpAt(opts, links, plan, r, i) {
      assert outcomes[i] == OutcomeAt(opts, LinksAt(opts, links, plan, r, i), plan[i], r, i);
    }
    if x in RecordedTunnels(cs) {
      var c, p :| c in cs && NeedsTeardown(c.state) && p in c.tunnelPorts && c.tunnelPorts[p] == x;
      var i :| 0 <= i < |cs| && cs[i] == c;
      assert x in LocalPorts(outcomes[i].ports);
    }
    if i :| 0 <= i < |plan| && UpAt(opts, links, plan, r, i) && x in LocalPorts(outcomes[i].ports) {
      var p :| p in outcomes[i].ports && outcomes[i].ports[p] == x;
      assert cs[i] in cs && NeedsTeardown(cs[i].state) && cs[i].tunnelPorts[p] == x;
    }
  }

  /** The condition on one round: nothing recorded before it, and everything opened in it recorded. */
  ghost predicate TunnelClean(opts: Options, w: World, plan: seq<Decision>, r: Replies) {
    && RecordedTunnels(w.containers) == {}
    && forall i :: 0 <= i < |plan| && UpAt(opts, w.links, plan, r, i) ==> RecordsAll(opts, plan[i])
  }

  lemma GainedIs(opts: Options, links: Links, plan: seq<Decision>, r: Replies, i: nat)
    requires i < |plan|
    ensures var o, gained := Outcomes(opts, links, plan, r)[i], Gained(opts, links, plan, r, i);
      && (o.Up? <==> UpAt(opts, links, plan, r, i))
      && (!o.Up? ==> gained == {})
      && (o.Up? ==> LocalPorts(o.ports) <= gained && (LocalPorts(o.ports) == gained <==> RecordsAll(opts, plan[i])))
  {
    hide OutcomeAt, LinksNext, RecordsAll;
    var l := LinksAt(opts, links, plan, r, i);
    assert Outcomes(opts, links, plan, r)[i] == OutcomeAt(opts, l, plan[i], r, i);
    DecisionTunnels(opts, l, plan[i], r, i);
  }

  lemma RoundTunnels(opts: Options, w: World, plan: seq<Decision>, r: Replies)
    requires TunnelsAgree(w)
    ensures TunnelsAgree(Perform(opts, w, Round(plan, r))) <==> TunnelClean(opts, w, plan, r)
  {
    hide OutcomeAt, LinksAt, LiveAfter, RecordedTunnels, RecordsAll, Outcomes, Placement;
    var links, n := w.links, |plan|;
    var outcomes := Outcomes(opts, links, plan, r);
    var open, recorded := TunnelsAt(opts, links, plan, r, n), RecordedTunnels(Placement(plan, outcomes));
    TunnelsGrow(opts, links, plan, r, 0, n);
    NoLinksYet(opts, links, plan, r);
    forall i | 0 <= i < n
      ensures UpAt(opts, links, plan, r, i) <==> outcomes[i].Up?
      ensures outcomes[i].Up? ==> LocalPorts(outcomes[i].ports) <= Gained(opts, links, plan, r, i)
    {
      GainedIs(opts, links, plan, r, i);
    }
    if TunnelClean(opts, w, plan, r) {
      forall x ensures x in open <==> x in recorded { CleanTunnel(opts, links, plan, r, x); }
    } else if x :| x in links.tunnels {
      RecordedAfter(opts, links, plan, r, x);
      forall i | 0 <= i < n && outcomes[i].Up? ensures x !in LocalPorts(outcomes[i].ports) {
        if x in Gained(opts, links, plan, r, i) { GainedOnce(opts, links, plan, r, i, i, x); }
      }
      assert x in open && x !in recorded;
    } else {
      var i :| 0 <= i < n && UpAt(opts, links, plan, r, i) && !RecordsAll(opts, plan[i]);
      var x := LostTunnel(opts, links, plan, r, i);
      assert x in open && x !in recorded;
    }
  }

  lemma CleanTunnel(opts: Options, links: Links, plan: seq<Decision>, r: Replies, x: string)
    requires links.tunnels == {}
    requires forall i :: 0 <= i < |plan| && UpAt(opts, links, plan, r, i) ==> RecordsAll(opts, plan[i])
    ensures x in TunnelsAt(opts, links, plan, r, |plan|) <==>
      x in RecordedTunnels(Placement(plan, Outcomes(opts, links, plan, r)))
  {
    hide OutcomeAt, LinksAt, RecordedTunnels, RecordsAll, Outcomes, Placement;
    RecordedAfter(opts, links, plan, r, x);
    var outcomes := Outcomes(opts, links, plan, r);
    if x in TunnelsAt(opts, links, plan, r, |plan|) {
      NoLinksYet(opts, links, plan, r);
      var i := GainedBy(opts, links, plan, r, |plan|, x);
      GainedIs(opts, links, plan, r, i);
    }
    if i :| 0 <= i < |plan| && UpAt(opts, links, plan, r, i) && x in LocalPorts(outcomes[i].ports) {
      GainedIs(opts, links, plan, r, i);
      TunnelsGrow(opts, links, plan, r, i + 1, |plan|);
    }
  }

  /** A container whose remote ports coincide opens a tunnel that no record knows. */
  lemma LostTunnel(opts: Options, links: Links, plan: seq<Decision>, r: Replies, i: nat) returns (x: string)
    requires i < |plan| && UpAt(opts, links, plan, r, i) && !RecordsAll(opts, plan[i])
    ensures x in TunnelsAt(opts, links, plan, r, |plan|)
    ensures x !in RecordedTunnels(Placement(plan, Outcomes(opts, links, plan, r)))
  {
    hide OutcomeAt, LinksAt, RecordedTunnels, RecordsAll, Outcomes, Placement;
    var outcomes := Outcomes(opts, links, plan, r);
    GainedIs(opts, links, plan, r, i);
    x :| x in Gained(opts, links, plan, r, i) && x !in LocalPorts(outcomes[i].ports);
    TunnelsGrow(opts, links, plan, r, i + 1, |plan|);
    RecordedAfter(opts, links, plan, r, x);
    forall j | 0 <= j < |plan| && UpAt(opts, links, plan, r, j) ensures x !in LocalPorts(outcomes[j].ports) {
      GainedIs(opts, links, plan, r, j);
      if j != i && x in Gained(opts, links, plan, r, j) { GainedOnce(opts, links, plan, r, i, j, x); }
    }
  }

  lemma FlipKeepsRecords(cs: seq<Container>, names: set<string>)
    ensures RecordedTunnels(Flipped(cs, names)) == RecordedTunnels(cs)
  {
    var fs := Flipped(cs, names);
    forall x ensures x in RecordedTunnels(fs) <==> x in RecordedTunnels(cs) {
      if x in RecordedTunnels(cs) {
        var c, p :| c in cs && NeedsTeardown(c.state) && p in c.tunnelPorts && c.tunnelPorts[p] == x;
        var i :| 0 <= i < |cs| && cs[i] == c;
        assert fs[i] in fs && fs[i].tunnelPorts[p] == x;
      }
      if x in RecordedTunnels(fs) {
        var c, p :| c in fs && NeedsTeardown(c.state) && p in c.tunnelPorts && c.tunnelPorts[p] == x;
        var i :| 0 <= i < |fs| && fs[i] == c;
        assert cs[i] in cs && cs[i].tunnelPorts[p] == x;
      }
    }
  }

  ghost predicate KeepsTunnels(opts: Options, w: World, op: Operation) {
    op.Round? ==> TunnelClean(opts, w, op.plan, op.r)
  }

  /**
   * No teardown closes a tunnel, except that Undistribute closes all. So, over every history, the open tunnels are
   * those recorded with the tracked containers throughout exactly when no round starts while one is recorded and
   * the remote ports of each container that comes up are pairwise different.
   */
  lemma {:induction false} TunnelsAgreeIff(opts: Options, ws: seq<World>, ops: seq<Operation>, n: nat)
    requires History(opts, ws, ops) && n <= |ops|
    ensures (forall k :: 0 <= k <= n ==> TunnelsAgree(ws[k])) <==>
      (forall k :: 0 <= k < n ==> KeepsTunnels(opts, ws[k], ops[k]))
  {
    hide TunnelClean, Perform;
    if n == 0 {
      assert RecordedTunnels([]) == {};
    } else {
      TunnelsAgreeIff(opts, ws, ops, n - 1);
      if TunnelsAgree(ws[n - 1]) { TunnelStep(opts, ws[n - 1], ops[n - 1]); }
    }
  }

  lemma TunnelStep(opts: Options, w: World, op: Operation)
    requires TunnelsAgree(w)
    ensures TunnelsAgree(Perform(opts, w, op)) <==> KeepsTunnels(opts, w, op)
  {
    hide TunnelClean, LinksAt, Outcomes, LiveAfter, AfterUnmountAll;
    match op
    case Round(plan, r) => RoundTunnels(opts, w, plan, r);
    case Failover(names) => FlipKeepsRecords(w.containers, names);
    case Undistribute(_, _) => assert RecordedTunnels([]) == {};
  }

  const EMPTY: World := World([], {}, Links({}, map[]))

  const EVERYTHING: Options := Options(true, true, true, true, true)

  /** Every host and every command answers well, and no volume is asked for. */
  function Served(tunnel: nat -> TunnelReply): Replies {
    var down := TeardownReply(true, true, false);
    Replies(_ => false, _ => true, _ => true, _ => true,
      _ => WireReplies(tunnel, [], _ => HostMounts, _ => HostUnmounts), _ => down, _ => down)
  }

  function FirstThenSecond(i: nat): TunnelReply { TunnelInfo(if i == 0 then "1" else "2") }

  /** One remote container whose ports all get a tunnel. */
  lemma OneServed(d: Decision, tunnel: nat -> TunnelReply, n: nat)
    requires NormHost(d.host) != "local" && d.score != 0.0 && n == |d.req.ports|
    requires AllFit({}, d.req.ports, tunnel, n)
    ensures var w := Perform(EVERYTHING, EMPTY, Round([d], Served(tunnel)));
      && w.links.tunnels == OpenAfter({}, d.req.ports, tunnel, n)
      && w.containers == [Container(d.req, d.host, Running, Recorded(d.req.ports, tunnel, n))]
  {
    hide OpenAfter, Recorded, LiveAfter;
    var plan, r, links := [d], Served(tunnel), EMPTY.links;
    FitFromIs({}, d.req.ports, tunnel, 0);
    assert LinksAt(EVERYTHING, links, plan, r, 0) == links;
    assert LinksAt(EVERYTHING, links, plan, r, 1) == LinksNext(EVERYTHING, links, d, r, 0);
    assert MountFrom(map[], d.host, r.wiring(0), 0) == 0;
  }

  /** One port published for TCP and UDP: two tunnels open, the record of the first is overwritten. */
  lemma OverwrittenExample()
    ensures var req := Requirement("dns", "bind", [PortMapping(53, 53, "tcp"), PortMapping(53, 53, "udp")]);
      var w := Perform(EVERYTHING, EMPTY, Round([Decision(req, "h", 1.0)], Served(FirstThenSecond)));
      w.links.tunnels == {"1", "2"} && RecordedTunnels(w.containers) == {"2"}
  {
    hide Perform;
    var ports := [PortMapping(53, 53, "tcp"), PortMapping(53, 53, "udp")];
    var d := Decision(Requirement("dns", "bind", ports), "h", 1.0);
    TwoTunnels(ports, FirstThenSecond);
    OneServed(d, FirstThenSecond, 2);
    var c := Container(d.req, d.host, Running, Recorded(ports, FirstThenSecond, 2));
    RecordedOne(c, RemotePort(ports[0]), "2");
  }

  lemma TwoTunnels(ports: seq<PortMapping>, tunnel: nat -> TunnelReply)
    requires |ports| == 2 && ports[0].containerPort > 0 && ports[1].containerPort > 0
    requires RemotePort(ports[0]) == RemotePort(ports[1])
    requires tunnel(0) == TunnelInfo("1") && tunnel(1) == TunnelInfo("2")
    ensures OpenAfter({}, ports, tunnel, 2) == {"1", "2"} && AllFit({}, ports, tunnel, 2)
    ensures Recorded(ports, tunnel, 2) == map[RemotePort(ports[0]) := "2"]
  {
    hide RemotePort;
    assert OpenAfter({}, ports, tunnel, 0) == {};
    assert OpenAfter({}, ports, tunnel, 1) == {"1"};
    assert "2" != "1";
    assert Recorded(ports, tunnel, 1) == map[RemotePort(ports[0]) := "1"];
  }

  lemma RecordedOne(c: Container, p: string, local: string)
    requires NeedsTeardown(c.state) && c.tunnelPorts == map[p := local]
    ensures RecordedTunnels([c]) == {local}
  {
    assert c in [c] && p in c.tunnelPorts;
  }

  /** A container dropped in the next round is removed, and its tunnel stays open. */
  lemma DroppedExample()
    ensures var req := Requirement("web", "nginx", [PortMapping(80, 80, "tcp")]);
      var w := Perform(EVERYTHING, EMPTY, Round([Decision(req, "h", 1.0)], Served(FirstThenSecond)));
      var w' := Perform(EVERYTHING, w, Round([], Served(FirstThenSecond)));
      && w.links.tunnels == {"1"} == RecordedTunnels(w.containers)
      && w'.links.tunnels == {"1"} && RecordedTunnels(w'.containers) == {} && w'.containers == []
  {
    var ports := [PortMapping(80, 80, "tcp")];
    var d := Decision(Requirement("web", "nginx", ports), "h", 1.0);
    OneTunnel(ports, FirstThenSecond);
    OneServed(d, FirstThenSecond, 1);
    var c := Container(d.req, d.host, Running, Recorded(ports, FirstThenSecond, 1));
    RecordedOne(c, RemotePort(ports[0]), "1");
    NothingPlanned(Perform(EVERYTHING, EMPTY, Round([d], Served(FirstThenSecond))), Served(FirstThenSecond));
  }

  lemma NothingPlanned(w: World, r: Replies)
    ensures var w' := Perform(EVERYTHING, w, Round([], r));
      w'.links == w.links && w'.containers == [] && RecordedTunnels(w'.containers) == {}
  {
  }

  lemma OneTunnel(ports: seq<PortMapping>, tunnel: nat -> TunnelReply)
    requires |ports| == 1 && ports[0].containerPort > 0 && tunnel(0) == TunnelInfo("1")
    ensures OpenAfter({}, ports, tunnel, 1) == {"1"} && AllFit({}, ports, tunnel, 1)
    ensures Recorded(ports, tunnel, 1) == map[RemotePort(ports[0]) := "1"]
  {
    hide RemotePort;
    assert OpenAfter({}, ports, tunnel, 0) == {};
  }

  // ------------------------------------------------------------------------------- volumes

  /** A remote container of the round asks for a volume of that name. */
  ghost predicate Requests(d: Decision, r: Replies, i: nat, name: string) {
    NormHost(d.host) != "local" && exists j :: 0 <= j < |r.wiring(i).mounts| && r.wiring(i).mounts[j].name == name
  }

  lemma DecisionMounts(opts: Options, links: Links, d: Decision, r: Replies, i: nat)
    ensures links.mounts.Keys <= LinksNext(opts, links, d, r, i).mounts.Keys
  {
    hide Wire;
    WireKeepsMounts(links, d.host, opts.tunnels, d.req.ports, r.wiring(i));
  }

  lemma {:induction false} MountsGrow(opts: Options, links: Links, plan: seq<Decision>, r: Replies, i: nat, n: nat)
    requires i <= n <= |plan|
    ensures LinksAt(opts, links, plan, r, i).mounts.Keys <= LinksAt(opts, links, plan, r, n).mounts.Keys
  {
    if i == n {
    } else {
      MountsGrow(opts, links, plan, r, i, n - 1);
      DecisionMounts(opts, LinksAt(opts, links, plan, r, n - 1), plan[n - 1], r, n - 1);
    }
  }

  /** A container that comes up finds its volumes unregistered and leaves them registered. */
  lemma UpRegisters(opts: Options, links: Links, plan: seq<Decision>, r: Replies, i: nat, name: string)
    requires i < |plan| && UpAt(opts, links, plan, r, i) && Requests(plan[i], r, i, name)
    ensures name !in LinksAt(opts, links, plan, r, i).mounts && name in LinksAt(opts, links, plan, r, i + 1).mounts
    ensures name !in links.mounts && name in LinksAt(opts, links, plan, r, |plan|).mounts
  {
    var l, d := LinksAt(opts, links, plan, r, i), plan[i];
    var j :| 0 <= j < |r.wiring(i).mounts| && r.wiring(i).mounts[j].name == name;
    UpIsWired(opts, l, d, r, i);
    CompleteMounts(l, d.host, opts.tunnels, d.req.ports, r.wiring(i), j);
    MountsGrow(opts, links, plan, r, 0, i);
    NoLinksYet(opts, links, plan, r);
    MountsGrow(opts, links, plan, r, i + 1, |plan|);
    assert LinksAt(opts, links, plan, r, i + 1) == LinksNext(opts, l, d, r, i);
  }

  lemma OncePerRound(opts: Options, links: Links, plan: seq<Decision>, r: Replies, i: nat, j: nat, name: string)
    requires i < j < |plan| && UpAt(opts, links, plan, r, i) && Requests(plan[i], r, i, name)
    ensures !(UpAt(opts, links, plan, r, j) && Requests(plan[j], r, j, name))
  {
    hide LinksAt, UpAt, Requests;
    UpRegisters(opts, links, plan, r, i, name);
    MountsGrow(opts, links, plan, r, i + 1, j);
    if UpAt(opts, links, plan, r, j) && Requests(plan[j], r, j, name) {
      UpRegisters(opts, links, plan, r, j, name);
    }
  }

  lemma UpIsWired(opts: Options, links: Links, d: Decision, r: Replies, i: nat)
    requires OutcomeAt(opts, links, d, r, i).Up? && NormHost(d.host) != "local"
    ensures EndAt(opts, links, d, r, i).Complete? && Wires(opts, d, r, i)
  {
    hide WireEnd, WirePorts;
  }

  /** In round `k` of a history decision `i` comes up with a volume of that name. */
  ghost predicate ComesUpWith(opts: Options, ws: seq<World>, ops: seq<Operation>, k: nat, i: nat, name: string)
    requires k < |ops| && |ws| == |ops| + 1
  {
    && ops[k].Round? && i < |ops[k].plan| && UpAt(opts, ws[k].links, ops[k].plan, ops[k].r, i)
    && Requests(ops[k].plan[i], ops[k].r, i, name)
  }

  lemma {:induction false} MountStays(opts: Options, ws: seq<World>, ops: seq<Operation>, k: nat, n: nat, name: string)
    requires History(opts, ws, ops) && k <= n <= |ops| && name in ws[k].links.mounts
    requires forall m :: k <= m < n ==> !ops[m].Undistribute?
    ensures name in ws[n].links.mounts
  {
    if k == n {
    } else {
      MountStays(opts, ws, ops, k, n - 1, name);
      assert Sensible(ops[n - 1]) && ws[n] == Perform(opts, ws[n - 1], ops[n - 1]);
      MountStep(opts, ws[n - 1], ops[n - 1], name);
    }
  }

  lemma MountStep(opts: Options, w: World, op: Operation, name: string)
    requires !op.Undistribute? && name in w.links.mounts
    ensures name in Perform(opts, w, op).links.mounts
  {
    if op.Round? {
      MountsGrow(opts, w.links, op.plan, op.r, 0, |op.plan|);
      NoLinksYet(opts, w.links, op.plan, op.r);
    }
  }

  /**
   * No teardown unmounts a volume: over every history, remote containers that ask for a volume of the same name
   * come up twice only in two different rounds, and only with an Undistribute in between.
   */
  lemma VolumeComesUpOnce(opts: Options, ws: seq<World>, ops: seq<Operation>, k: nat, i: nat, n: nat, j: nat,
                          name: string)
    requires History(opts, ws, ops) && k <= n < |ops| && (k == n ==> i < j)
    requires ComesUpWith(opts, ws, ops, k, i, name) && ComesUpWith(opts, ws, ops, n, j, name)
    ensures exists m :: k < m < n && ops[m].Undistribute?
  {
    hide LinksAt, UpAt, Perform, Requests;
    if k == n { OncePerRound(opts, ws[k].links, ops[k].plan, ops[k].r, i, j, name); }
    UpRegisters(opts, ws[k].links, ops[k].plan, ops[k].r, i, name);
    UpRegisters(opts, ws[n].links, ops[n].plan, ops[n].r, j, name);
    RoundLinks(opts, ws, ops, k);
    if forall m :: k < m < n ==> !ops[m].Undistribute? {
      MountStays(opts, ws, ops, k + 1, n, name);
    }
  }

  lemma RoundLinks(opts: Options, ws: seq<World>, ops: seq<Operation>, k: nat)
    requires History(opts, ws, ops) && k < |ops| && ops[k].Round?
    ensures ws[k + 1].links == LinksAt(opts, ws[k].links, ops[k].plan, ops[k].r, |ops[k].plan|)
  {
    assert ws[k + 1] == Perform(opts, ws[k], ops[k]);
  }
}
