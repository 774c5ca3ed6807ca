/**
 * The distributor: what it tracks against what really runs. A ghost set records the containers
 * that are live on hosts; the methods keep the tracked placements in step with it, and the exact
 * set by which the two can come apart is given. Every host lookup and every command has an answer of its own.
 */
module Distribution {
  import opened Prelude
  import opened Wiring

  datatype State = Scheduled | Deploying | Running | Failed | Migrating | Stopped

  datatype Requirement = Requirement(name: string, image: string, ports: seq<PortMapping>)

  /** A tracked placement, with the local port recorded for each remote port. */
  datatype Container = Container(req: Requirement, host: string, state: State, tunnelPorts: map<string, string>)

  datatype Decision = Decision(req: Requirement, host: string, score: real)

  /** Which collaborators are configured (non-nil). */
  datatype Options = Options(localRuntime: bool, executor: bool, hostManager: bool, scheduler: bool, tunnels: bool)

  function NormHost(h: string): string { if h == "" then "local" else h }

  predicate NeedsTeardown(s: State) { s.Running? || s.Migrating? }

  /** A container as a host knows it: the host and the name. */
  type Instance = (string, string)

  function Key(c: Container): Instance { (NormHost(c.host), c.req.name) }

  function DecisionKey(d: Decision): Instance { (NormHost(d.host), d.req.name) }

  /** The placements that should be alive. */
  ghost function Tracked(cs: seq<Container>): set<Instance> {
    set c | c in cs && NeedsTeardown(c.state) :: Key(c)
  }

  ghost predicate UniqueNames(cs: seq<Container>) {
    forall i, j :: 0 <= i < j < |cs| ==> cs[i].req.name != cs[j].req.name
  }

  ghost predicate UniquePlan(plan: seq<Decision>) {
    forall i, j :: 0 <= i < j < |plan| ==> plan[i].req.name != plan[j].req.name
  }

  // ------------------------------------------------------------------------------- answers

  /** A removal: whether the host lookup succeeds, whether the command takes effect, whether it reports an error. */
  datatype TeardownReply = TeardownReply(found: bool, effective: bool, erred: bool)

  /** What the collaborators answer during one round: per decision, and per old instance to be removed. */
  datatype Replies = Replies(
    cancelled: nat -> bool,
    found: nat -> bool,              // the host lookup before the deployment
    cleared: nat -> bool,            // the removal before a remote start takes effect
    started: nat -> bool,
    wiring: nat -> WireReplies,
    undone: nat -> TeardownReply,    // the removal after a failed wiring
    removed: Instance -> TeardownReply)

  predicate Configured(opts: Options, host: string) {
    if NormHost(host) == "local" then opts.localRuntime else opts.executor && opts.hostManager
  }

  /** A removal that is issued and takes effect. */
  predicate TakesDown(opts: Options, host: string, t: TeardownReply) {
    Configured(opts, host) && (NormHost(host) == "local" || t.found) && t.effective
  }

  /** A removal that reports an error; a local one without a runtime reports none. */
  predicate TeardownFails(opts: Options, host: string, t: TeardownReply) {
    if NormHost(host) == "local" then opts.localRuntime && t.erred
    else !Configured(opts, host) || !t.found || t.erred
  }

  // ------------------------------------------------------------------------------ one round

  /** How one decision of a round ended. */
  datatype Outcome =
    | Skipped                                  // cancelled context or zero score: nothing issued
    | Refused                                  // failed with the old instance, if any, left as it was
    | StartFailed                              // remote: the old instance was removed, then the start failed
    | WireFailed(ports: map<string, string>)   // started, then removed because tunnels or volumes failed
    | Stranded(ports: map<string, string>)     // the same, but the removal did not take effect
    | Up(ports: map<string, string>)

  predicate Attempted(d: Decision, r: Replies, i: nat) { !r.cancelled(i) && d.score != 0.0 }

  /** The start of a decision is issued. */
  predicate Issues(opts: Options, d: Decision, r: Replies, i: nat) {
    Attempted(d, r, i) && Configured(opts, d.host) && (NormHost(d.host) == "local" || r.found(i))
  }

  /** A started remote container gets its tunnels and volumes. */
  predicate Wires(opts: Options, d: Decision, r: Replies, i: nat) {
    Issues(opts, d, r, i) && r.started(i) && NormHost(d.host) != "local"
  }

  ghost function EndAt(opts: Options, links: Links, d: Decision, r: Replies, i: nat): Wired {
    WireEnd(links, d.host, opts.tunnels, d.req.ports, r.wiring(i))
  }

  ghost function OutcomeAt(opts: Options, links: Links, d: Decision, r: Replies, i: nat): Outcome {
    var ports := WirePorts(links, opts.tunnels, d.req.ports, r.wiring(i));
    if !Attempted(d, r, i) then Skipped
    else if !Issues(opts, d, r, i) then Refused
    else if !r.started(i) then if NormHost(d.host) != "local" && r.cleared(i) then StartFailed else Refused
    else if NormHost(d.host) == "local" then Up(map[])
    else if EndAt(opts, links, d, r, i).Complete? then Up(ports)
    else if TakesDown(opts, d.host, r.undone(i)) then WireFailed(ports)
    else Stranded(ports)
  }

  ghost function LinksNext(opts: Options, links: Links, d: Decision, r: Replies, i: nat): Links {
    if Wires(opts, d, r, i) then Wire(links, d.host, opts.tunnels, d.req.ports, r.wiring(i)) else links
  }

  /** Tunnels and mounts when the first `n` decisions have been carried out. */
  ghost function LinksAt(opts: Options, links: Links, plan: seq<Decision>, r: Replies, n: nat): Links
    requires n <= |plan|
  {
    if n == 0 then links else LinksNext(opts, LinksAt(opts, links, plan, r, n - 1), plan[n - 1], r, n - 1)
  }

  ghost predicate Decided(opts: Options, links: Links, plan: seq<Decision>, r: Replies, outcomes: seq<Outcome>)
    requires |outcomes| <= |plan|
  {
    forall i :: 0 <= i < |outcomes| ==>
      outcomes[i] == OutcomeAt(opts, LinksAt(opts, links, plan, r, i), plan[i], r, i)
  }

  ghost function Outcomes(opts: Options, links: Links, plan: seq<Decision>, r: Replies): (outcomes: seq<Outcome>)
    ensures |outcomes| == |plan| && Decided(opts, links, plan, r, outcomes)
  {
    seq(|plan|, i requires 0 <= i < |plan| => OutcomeAt(opts, LinksAt(opts, links, plan, r, i), plan[i], r, i))
  }

  function PortsOf(o: Outcome): map<string, string> {
    if o.Up? || o.WireFailed? || o.Stranded? then o.ports else map[]
  }

  function Placed(d: Decision, o: Outcome): Container {
    Container(d.req, d.host, if o.Up? then Running else Failed, PortsOf(o))
  }

  function Placement(plan: seq<Decision>, outcomes: seq<Outcome>): seq<Container>
    requires |plan| == |outcomes|
  {
    seq(|plan|, i requires 0 <= i < |plan| => Placed(plan[i], outcomes[i]))
  }

  ghost function StartedBy(plan: seq<Decision>, outcomes: seq<Outcome>): set<Instance>
    requires |plan| == |outcomes|
  {
    set i | 0 <= i < |plan| && outcomes[i].Up? :: DecisionKey(plan[i])
  }

  ghost function StrandedBy(plan: seq<Decision>, outcomes: seq<Outcome>): set<Instance>
    requires |plan| == |outcomes|
  {
    set i | 0 <= i < |plan| && outcomes[i].Stranded? :: DecisionKey(plan[i])
  }

  ghost function ReapedBy(plan: seq<Decision>, outcomes: seq<Outcome>): set<Instance>
    requires |plan| == |outcomes|
  {
    set i | 0 <= i < |plan| && (outcomes[i].StartFailed? || outcomes[i].WireFailed?) :: DecisionKey(plan[i])
  }

  /** The round deployed this name, successfully or not, to the host where it already was. */
  ghost predicate InPlace(c: Container, plan: seq<Decision>, outcomes: seq<Outcome>)
    requires |plan| == |outcomes|
  {
    exists i :: 0 <= i < |plan| && !outcomes[i].Skipped? && DecisionKey(plan[i]) == Key(c)
  }

  /** The old placements that the reconciliation takes down. */
  ghost function TornDown(opts: Options, r: Replies, prev: seq<Container>,
                          plan: seq<Decision>, outcomes: seq<Outcome>): set<Instance>
    requires |plan| == |outcomes|
  {
    set c | c in prev && NeedsTeardown(c.state) && !InPlace(c, plan, outcomes) &&
      TakesDown(opts, c.host, r.removed(Key(c))) :: Key(c)
  }

  /** What runs after a round, in terms of what ran before it. */
  ghost function LiveAfter(opts: Options, r: Replies, live: set<Instance>, prev: seq<Container>,
                           plan: seq<Decision>, outcomes: seq<Outcome>): set<Instance>
    requires |plan| == |outcomes|
  {
    (live - ReapedBy(plan, outcomes)) + StartedBy(plan, outcomes) + StrandedBy(plan, outcomes)
      - TornDown(opts, r, prev, plan, outcomes)
  }

  /**
   * The old instances that a round leaves running but no longer tracks: those whose redeployment
   * in place failed before they were removed, and those whose removal did not take effect.
   */
  ghost predicate Leaks(opts: Options, r: Replies, c: Container, plan: seq<Decision>, outcomes: seq<Outcome>)
    requires |plan| == |outcomes|
  {
    NeedsTeardown(c.state) &&
    if InPlace(c, plan, outcomes)
    then exists i :: 0 <= i < |plan| && outcomes[i].Refused? && DecisionKey(plan[i]) == Key(c)
    else !TakesDown(opts, c.host, r.removed(Key(c)))
  }

  /** All instances that run untracked after a round: leaked old ones and stranded new ones. */
  ghost function Leaked(opts: Options, r: Replies, prev: seq<Container>,
                        plan: seq<Decision>, outcomes: seq<Outcome>): set<Instance>
    requires |plan| == |outcomes|
  {
    (set c | c in prev && Leaks(opts, r, c, plan, outcomes) :: Key(c)) + StrandedBy(plan, outcomes)
  }

  lemma TrackedPlacement(plan: seq<Decision>, outcomes: seq<Outcome>)
    requires |plan| == |outcomes|
    ensures Tracked(Placement(plan, outcomes)) == StartedBy(plan, outcomes)
  {
    var cs := Placement(plan, outcomes);
    forall i | 0 <= i < |plan| && outcomes[i].Up? ensures DecisionKey(plan[i]) in Tracked(cs) {
      assert cs[i] in cs && Key(cs[i]) == DecisionKey(plan[i]);
    }
  }

  /** One old live instance: what the round makes of it depends on how its name was redeployed. */
  lemma OldInstance(opts: Options, r: Replies, live: set<Instance>, prev: seq<Container>,
                    plan: seq<Decision>, outcomes: seq<Outcome>, c: Container)
    requires |plan| == |outcomes| && UniquePlan(plan) && UniqueNames(prev) && live == Tracked(prev)
    requires c in prev && NeedsTeardown(c.state)
    requires Key(c) !in StartedBy(plan, outcomes) && Key(c) !in StrandedBy(plan, outcomes)
    ensures Key(c) in LiveAfter(opts, r, live, prev, plan, outcomes) <==> Leaks(opts, r, c, plan, outcomes)
    ensures Key(c) in Leaked(opts, r, prev, plan, outcomes) <==> Leaks(opts, r, c, plan, outcomes)
  {
    assert Key(c) in live;
    assert forall e <- prev :: Key(e) == Key(c) ==> e == c;
    if InPlace(c, plan, outcomes) {
      var i :| 0 <= i < |plan| && !outcomes[i].Skipped? && DecisionKey(plan[i]) == Key(c);
      assert forall j :: 0 <= j < |plan| && DecisionKey(plan[j]) == Key(c) ==> j == i;
    }
  }

  /** Wherever tracking and reality agreed, after a round they differ by exactly the leaked instances. */
  lemma RoundExact(opts: Options, r: Replies, live: set<Instance>, prev: seq<Container>,
                   plan: seq<Decision>, outcomes: seq<Outcome>)
    requires |plan| == |outcomes| && UniquePlan(plan) && UniqueNames(prev) && live == Tracked(prev)
    ensures LiveAfter(opts, r, live, prev, plan, outcomes)
         == Tracked(Placement(plan, outcomes)) + Leaked(opts, r, prev, plan, outcomes)
    ensures Tracked(Placement(plan, outcomes)) !! Leaked(opts, r, prev, plan, outcomes)
  {
    TrackedPlacement(plan, outcomes);
    var started, stranded := StartedBy(plan, outcomes), StrandedBy(plan, outcomes);
    var after, leaked := LiveAfter(opts, r, live, prev, plan, outcomes), Leaked(opts, r, prev, plan, outcomes);
    forall k: Instance ensures k in after <==> k in started || k in leaked {
      if k in started || k in stranded {
        var i :| 0 <= i < |plan| && (outcomes[i].Up? || outcomes[i].Stranded?) && DecisionKey(plan[i]) == k;
        assert forall c <- prev :: Key(c) == k ==> InPlace(c, plan, outcomes);
      } else if k in live {
        var c :| c in prev && NeedsTeardown(c.state) && Key(c) == k;
        OldInstance(opts, r, live, prev, plan, outcomes, c);
      }
    }
    forall k | k in started ensures k !in leaked {
      var i :| 0 <= i < |plan| && outcomes[i].Up? && DecisionKey(plan[i]) == k;
      assert forall j :: 0 <= j < |plan| && DecisionKey(plan[j]) == k ==> j == i;
      assert forall c <- prev :: Key(c) == k ==> InPlace(c, plan, outcomes);
    }
  }

  /** An attempt that ends with the old instance gone or replaced. */
  predicate Clears(opts: Options, d: Decision, r: Replies, i: nat) {
    Issues(opts, d, r, i) && (r.started(i) || (NormHost(d.host) != "local" && r.cleared(i)))
  }

  ghost predicate CleanFor(opts: Options, c: Container, plan: seq<Decision>, r: Replies) {
    && (forall i :: 0 <= i < |plan| && DecisionKey(plan[i]) == Key(c) && Attempted(plan[i], r, i) ==>
          Clears(opts, plan[i], r, i))
    && (TakesDown(opts, c.host, r.removed(Key(c))) ||
        exists i :: 0 <= i < |plan| && DecisionKey(plan[i]) == Key(c) && Attempted(plan[i], r, i))
  }

  /** A wiring that fails is undone. */
  ghost predicate NoneStranded(opts: Options, links: Links, plan: seq<Decision>, r: Replies) {
    forall i :: 0 <= i < |plan| && Wires(opts, plan[i], r, i) ==>
      EndAt(opts, LinksAt(opts, links, plan, r, i), plan[i], r, i).Complete? ||
      TakesDown(opts, plan[i].host, r.undone(i))
  }

  /**
   * Each live placement is redeployed in place by an attempt that clears it, or its removal takes effect; and
   * every container that cannot be wired is removed again.
   */
  ghost predicate CleanRound(opts: Options, links: Links, prev: seq<Container>, plan: seq<Decision>, r: Replies) {
    && (forall c <- prev :: NeedsTeardown(c.state) ==> CleanFor(opts, c, plan, r))
    && NoneStranded(opts, links, plan, r)
  }

  /** Agreement survives a round if and only if the round is clean. */
  lemma RoundAgreesIffClean(opts: Options, links: Links, live: set<Instance>, prev: seq<Container>,
                            plan: seq<Decision>, outcomes: seq<Outcome>, r: Replies)
    requires |plan| == |outcomes| && UniquePlan(plan) && UniqueNames(prev) && live == Tracked(prev)
    requires Decided(opts, links, plan, r, outcomes)
    ensures LiveAfter(opts, r, live, prev, plan, outcomes) == Tracked(Placement(plan, outcomes))
       <==> CleanRound(opts, links, prev, plan, r)
  {
    hide LiveAfter, Placement, CleanFor, Leaks, NoneStranded, Decided, LinksAt;
    RoundExact(opts, r, live, prev, plan, outcomes);
    forall c <- prev | NeedsTeardown(c.state)
      ensures Leaks(opts, r, c, plan, outcomes) <==> !CleanFor(opts, c, plan, r)
    {
      LeakCondition(opts, links, c, plan, outcomes, r);
    }
    LeaksNeedTeardown(opts, r, prev, plan, outcomes);
    StrandCondition(opts, links, plan, outcomes, r);
    if c :| c in prev && NeedsTeardown(c.state) && !CleanFor(opts, c, plan, r) {
      assert Key(c) in Leaked(opts, r, prev, plan, outcomes);
    }
  }

  lemma LeaksNeedTeardown(opts: Options, r: Replies, prev: seq<Container>, plan: seq<Decision>, outcomes: seq<Outcome>)
    requires |plan| == |outcomes|
    ensures forall c <- prev :: Leaks(opts, r, c, plan, outcomes) ==> NeedsTeardown(c.state)
  {
  }

  lemma LeakCondition(opts: Options, links: Links, c: Container, plan: seq<Decision>, outcomes: seq<Outcome>,
                      r: Replies)
    requires |plan| == |outcomes| && UniquePlan(plan) && NeedsTeardown(c.state)
    requires Decided(opts, links, plan, r, outcomes)
    ensures Leaks(opts, r, c, plan, outcomes) <==> !CleanFor(opts, c, plan, r)
  {
    hide LinksAt, EndAt, TakesDown;
    if i :| 0 <= i < |plan| && DecisionKey(plan[i]) == Key(c) {
      assert outcomes[i] == OutcomeAt(opts, LinksAt(opts, links, plan, r, i), plan[i], r, i);
      assert forall j :: 0 <= j < |plan| && DecisionKey(plan[j]) == Key(c) ==> j == i;
    }
  }

  lemma StrandCondition(opts: Options, links: Links, plan: seq<Decision>, outcomes: seq<Outcome>, r: Replies)
    requires |plan| == |outcomes| && Decided(opts, links, plan, r, outcomes)
    ensures StrandedBy(plan, outcomes) == {} <==> NoneStranded(opts, links, plan, r)
  {
    hide LinksAt, TakesDown, Issues, WireEnd, WirePorts;
    forall i | 0 <= i < |plan|
      ensures outcomes[i].Stranded? <==>
        Wires(opts, plan[i], r, i) && !EndAt(opts, LinksAt(opts, links, plan, r, i), plan[i], r, i).Complete? &&
        !TakesDown(opts, plan[i].host, r.undone(i))
    {
      assert outcomes[i] == OutcomeAt(opts, LinksAt(opts, links, plan, r, i), plan[i], r, i);
      IssuedIsAttempted(opts, plan[i], r, i);
    }
    if i :| 0 <= i < |plan| && outcomes[i].Stranded? {
      assert DecisionKey(plan[i]) in StrandedBy(plan, outcomes);
    }
  }

  lemma IssuedIsAttempted(opts: Options, d: Decision, r: Replies, i: nat)
    ensures Issues(opts, d, r, i) ==> Attempted(d, r, i)
  {
  }

  /** A local container redeployed in place whose start fails keeps running, untracked. */
  lemma LeakExample()
    ensures var req := Requirement("db", "postgres", []);
      var prev, plan := [Container(req, "", Running, map[])], [Decision(req, "local", 1.0)];
      var opts, links := Options(true, true, true, true, true), Links({}, map[]);
      var wiring := (_: nat) => WireReplies(_ => TunnelError, [], _ => HostMounts, _ => HostGone);
      var r := Replies(_ => false, _ => true, _ => true, _ => false, wiring, _ => TeardownReply(true, true, false),
        _ => TeardownReply(true, true, false));
      && Outcomes(opts, links, plan, r) == [Refused]
      && LiveAfter(opts, r, Tracked(prev), prev, plan, [Refused]) == {("local", "db")}
      && Tracked(Placement(plan, [Refused])) == {}
  {
    var req := Requirement("db", "postgres", []);
    var prev, plan := [Container(req, "", Running, map[])], [Decision(req, "local", 1.0)];
    assert DecisionKey(plan[0]) == Key(prev[0]) == ("local", "db");
    assert InPlace(prev[0], plan, [Refused]);
    assert prev[0] in prev;
    assert Tracked(prev) == {("local", "db")};
  }

  // ---------------------------------------------------------------------- the distributor

  datatype Summary = Summary(total: nat, local: nat, remote: nat, failed: nat, containers: seq<Container>)

  ghost predicate PlacedAt(cs: seq<Container>, k: Instance) { exists c <- cs :: Key(c) == k }

  /** What one deploy attempt does to what runs. */
  ghost function LiveAfterDeploy(live: set<Instance>, k: Instance, o: Outcome): set<Instance> {
    if o.Up? || o.Stranded? then live + {k}
    else if o.StartFailed? || o.WireFailed? then live - {k}
    else live
  }

  ghost function DeployedNames(plan: seq<Decision>, outcomes: seq<Outcome>): set<string>
    requires |plan| == |outcomes|
  {
    set j | 0 <= j < |plan| && !outcomes[j].Skipped? :: plan[j].req.name
  }

  function Singleton(b: bool, k: Instance): set<Instance> { if b then {k} else {} }

  lemma LiveGrows(live: set<Instance>, reaped: set<Instance>, started: set<Instance>, stranded: set<Instance>,
                  k: Instance, o: Outcome)
    requires k !in started && k !in reaped && k !in stranded
    ensures LiveAfterDeploy((live - reaped) + started + stranded, k, o) ==
      (live - (reaped + Singleton(o.StartFailed? || o.WireFailed?, k))) + (started + Singleton(o.Up?, k))
        + (stranded + Singleton(o.Stranded?, k))
  {
  }

  /** What a summary says about the new placement. */
  ghost predicate Counts(s: Summary, cs: seq<Container>, decisions: nat) {
    && s.containers == cs
    && s.local == |On(true, Tracked(cs))| && s.remote == |On(false, Tracked(cs))|
    && s.local + s.remote + s.failed == decisions
  }

  /** The instances on this machine, or on the others. */
  ghost function On(local: bool, ks: set<Instance>): set<Instance> {
    set k | k in ks && (k.0 == "local") == local
  }

  lemma OnGrows(local: bool, ks: set<Instance>, k: Instance)
    requires k !in ks
    ensures |On(local, ks + {k})| == |On(local, ks)| + if (k.0 == "local") == local then 1 else 0
  {
    assert On(local, ks + {k}) == On(local, ks) + if (k.0 == "local") == local then {k} else {};
  }

  /** Where the deploy loop stands after the decisions `plan`. */
  ghost predicate Progress(live0: set<Instance>, plan: seq<Decision>, outcomes: seq<Outcome>,
                           live: set<Instance>, current: seq<Container>, deployed: set<string>, local: nat, remote: nat)
  {
    && |plan| == |outcomes|
    && current == Placement(plan, outcomes)
    && deployed == DeployedNames(plan, outcomes)
    && live == (live0 - ReapedBy(plan, outcomes)) + StartedBy(plan, outcomes) + StrandedBy(plan, outcomes)
    && local == |On(true, StartedBy(plan, outcomes))|
    && remote == |On(false, StartedBy(plan, outcomes))|
  }

  lemma SetsGrow(plan: seq<Decision>, outcomes: seq<Outcome>, d: Decision, o: Outcome)
    requires |plan| == |outcomes| && UniquePlan(plan + [d])
    ensures var plan', outcomes', k := plan + [d], outcomes + [o], DecisionKey(d);
      && k !in StartedBy(plan, outcomes) && k !in ReapedBy(plan, outcomes) && k !in StrandedBy(plan, outcomes)
      && StartedBy(plan', outcomes') == StartedBy(plan, outcomes) + Singleton(o.Up?, k)
      && StrandedBy(plan', outcomes') == StrandedBy(plan, outcomes) + Singleton(o.Stranded?, k)
      && ReapedBy(plan', outcomes') == ReapedBy(plan, outcomes) + Singleton(o.StartFailed? || o.WireFailed?, k)
      && DeployedNames(plan', outcomes') == DeployedNames(plan, outcomes) + (if o.Skipped? then {} else {d.req.name})
      && Placement(plan', outcomes') == Placement(plan, outcomes) + [Placed(d, o)]
  {
    var n, plan', outcomes' := |plan|, plan + [d], outcomes + [o];
    forall j | 0 <= j < n
      ensures plan'[j] == plan[j] && outcomes'[j] == outcomes[j] && DecisionKey(plan[j]) != DecisionKey(d)
    {
      assert plan'[j].req.name != plan'[n].req.name;
    }
    assert plan'[n] == d && outcomes'[n] == o;
  }

  /** The deploy loop's progress: one more decision, with a name not seen before. */
  lemma RoundGrows(live0: set<Instance>, plan: seq<Decision>, outcomes: seq<Outcome>, live: set<Instance>,
                   current: seq<Container>, deployed: set<string>, local: nat, remote: nat, d: Decision, o: Outcome)
    requires Progress(live0, plan, outcomes, live, current, deployed, local, remote) && UniquePlan(plan + [d])
    ensures Progress(live0, plan + [d], outcomes + [o], LiveAfterDeploy(live, DecisionKey(d), o),
      current + [Placed(d, o)], if o.Skipped? then deployed else deployed + {d.req.name},
      if o.Up? && NormHost(d.host) == "local" then local + 1 else local,
      if o.Up? && NormHost(d.host) != "local" then remote + 1 else remote)
  {
    hide Placement, StartedBy, StrandedBy, ReapedBy, DeployedNames, On;
    var started := StartedBy(plan, outcomes);
    SetsGrow(plan, outcomes, d, o);
    LiveGrows(live0, ReapedBy(plan, outcomes), started, StrandedBy(plan, outcomes), DecisionKey(d), o);
    if o.Up? {
      OnGrows(true, started, DecisionKey(d));
      OnGrows(false, started, DecisionKey(d));
    } else {
      assert started + {} == started;
    }
  }

  lemma NoProgress(live: set<Instance>, decisions: seq<Decision>)
    ensures Progress(live, decisions[..0], [], live, [], {}, 0, 0)
  {
    assert StartedBy([], []) == {} && ReapedBy([], []) == {} && StrandedBy([], []) == {} && DeployedNames([], []) == {};
  }

  lemma NextProgress(live0: set<Instance>, decisions: seq<Decision>, i: nat,
                     outcomes: seq<Outcome>, live: set<Instance>, current: seq<Container>, deployed: set<string>,
                     local: nat, remote: nat, o: Outcome)
    requires i < |decisions| && UniquePlan(decisions)
    requires Progress(live0, decisions[..i], outcomes, live, current, deployed, local, remote)
    ensures var d := decisions[i];
      Progress(live0, decisions[..i + 1], outcomes + [o], LiveAfterDeploy(live, DecisionKey(d), o),
        current + [Placed(d, o)], if o.Skipped? then deployed else deployed + {d.req.name},
        if o.Up? && NormHost(d.host) == "local" then local + 1 else local,
        if o.Up? && NormHost(d.host) != "local" then remote + 1 else remote)
  {
    hide Progress;
    assert decisions[..i + 1] == decisions[..i] + [decisions[i]];
    RoundGrows(live0, decisions[..i], outcomes, live, current, deployed, local, remote, decisions[i], o);
  }

  lemma NoneDecided(opts: Options, links: Links, plan: seq<Decision>, r: Replies)
    ensures Decided(opts, links, plan, r, []) && LinksAt(opts, links, plan, r, 0) == links
  {
  }

  lemma DecidedGrows(opts: Options, links: Links, plan: seq<Decision>, r: Replies, outcomes: seq<Outcome>, o: Outcome)
    requires |outcomes| < |plan| && Decided(opts, links, plan, r, outcomes)
    ensures var i := |outcomes|;
      var now := LinksAt(opts, links, plan, r, i);
      && (o == OutcomeAt(opts, now, plan[i], r, i) ==> Decided(opts, links, plan, r, outcomes + [o]))
      && LinksAt(opts, links, plan, r, i + 1) == LinksNext(opts, now, plan[i], r, i)
  {
    hide OutcomeAt, LinksNext;
    var i := |outcomes|;
    forall j | 0 <= j < i
      ensures (outcomes + [o])[j] == OutcomeAt(opts, LinksAt(opts, links, plan, r, j), plan[j], r, j)
    {
      assert outcomes[j] == OutcomeAt(opts, LinksAt(opts, links, plan, r, j), plan[j], r, j);
    }
  }

  class DefaultDistributor {
    const opts: Options
    const links: RemoteLinks
    var containers: seq<Container>
    /** The containers really running on hosts. */
    ghost var live: set<Instance>

    constructor (opts: Options, links: RemoteLinks)
      ensures this.opts == opts && this.links == links && containers == [] && live == {}
    {
      this.opts, this.links, containers, live := opts, links, [], {};
    }

    /** Tracking and reality agree. */
    ghost predicate Agrees()
      reads this
    {
      UniqueNames(containers) && live == Tracked(containers)
    }

    ghost function Now(): World
      reads this, links
    {
      World(containers, live, links.State())
    }

    /** teardownContainer. */
    method TeardownContainer(c: Container, t: TeardownReply) returns (failed: bool)
      modifies this`live
      ensures live == if TakesDown(opts, c.host, t) then old(live) - {Key(c)} else old(live)
      ensures failed <==> TeardownFails(opts, c.host, t)
    {
      if NormHost(c.host) == "local" {
        if !opts.localRuntime { return false; }
      } else {
        if !opts.executor || !opts.hostManager || !t.found { return true; }
      }
      if t.effective { live := live - {Key(c)}; }
      return t.erred;
    }

    /**
     * deployContainer, with deployLocal and deployRemote. A started remote container stays up exactly when
     * its tunnels and volumes can be wired; otherwise it is torn down.
     */
    method DeployContainer(d: Decision, i: nat, r: Replies) returns (o: Outcome)
      requires Attempted(d, r, i)
      modifies this`live, links
      ensures o == OutcomeAt(opts, old(links.State()), d, r, i)
      ensures live == LiveAfterDeploy(old(live), DecisionKey(d), o)
      ensures links.State() == LinksNext(opts, old(links.State()), d, r, i)
    {
      hide WireEnd, Wire, WirePorts;
      var local := d.host == "" || d.host == "local";
      if local {
        if !opts.localRuntime { return Refused; }
        if !r.started(i) { return Refused; }
        live := live + {DecisionKey(d)};
      } else {
        if !opts.executor || !opts.hostManager || !r.found(i) { return Refused; }
        if r.cleared(i) { live := live - {DecisionKey(d)}; }           // rm -f before the run
        if !r.started(i) { return if r.cleared(i) then StartFailed else Refused; }
        live := live + {DecisionKey(d)};
      }
      var w, ports, _ := links.WireTunnelsAndVolumes(d.host, local, opts.tunnels, d.req.ports, r.wiring(i));
      if !w.Complete? {
        var _ := TeardownContainer(Container(d.req, d.host, Deploying, ports), r.undone(i));
        return if TakesDown(opts, d.host, r.undone(i)) then WireFailed(ports) else Stranded(ports);
      }
      return Up(ports);
    }

    static method NewHosts(current: seq<Container>) returns (newHost: map<string, string>)
      requires UniqueNames(current)
      ensures forall k: Instance :: PlacedAt(current, k) <==> k.1 in newHost && newHost[k.1] == k.0
    {
      newHost := map[];
      for i := 0 to |current|
        invariant forall k: Instance :: PlacedAt(current[..i], k) <==> k.1 in newHost && newHost[k.1] == k.0
      {
        var c := current[i];
        assert current[..i + 1] == current[..i] + [c];
        assert forall k: Instance :: PlacedAt(current[..i + 1], k) <==> PlacedAt(current[..i], k) || k == Key(c);
        assert forall n <- current[..i] :: n.req.name != c.req.name;
        newHost := newHost[c.req.name := NormHost(c.host)];
      }
      assert current[..|current|] == current;
    }

    /** reconcileRelocations: take down what moved away, was dropped or was not deployed this round. */
    method ReconcileRelocations(prev: seq<Container>, current: seq<Container>, deployed: set<string>,
                                removed: Instance -> TeardownReply)
      requires UniqueNames(current)
      modifies this`live
      ensures live == old(live) - (set c | c in prev && NeedsTeardown(c.state) &&
        TakesDown(opts, c.host, removed(Key(c))) && !(c.req.name in deployed && PlacedAt(current, Key(c))) :: Key(c))
    {
      var newHost := NewHosts(current);
      ghost var torn: set<Instance> := {};
      for i := 0 to |prev|
        invariant live == old(live) - torn
        invariant torn == set c | c in prev[..i] && NeedsTeardown(c.state) &&
          TakesDown(opts, c.host, removed(Key(c))) && !(c.req.name in deployed && PlacedAt(current, Key(c))) :: Key(c)
      {
        var c := prev[i];
        assert prev[..i + 1] == prev[..i] + [c];
        var kept := c.req.name in deployed && c.req.name in newHost && newHost[c.req.name] == NormHost(c.host);
        assert kept <==> c.req.name in deployed && PlacedAt(current, Key(c));
        if NeedsTeardown(c.state) && !kept {
          var _ := TeardownContainer(c, removed(Key(c)));
          if TakesDown(opts, c.host, removed(Key(c))) { torn := torn + {Key(c)}; }
        }
      }
      assert prev[..|prev|] == prev;
    }

    /**
     * Distribute: `plan` is the scheduler's answer (None: it failed). The new placement, what runs and what is
     * open afterwards follow from the answers; whether tracking and reality still agree depends on the round
     * being clean, and on nothing else.
     */
    method Distribute(reqs: seq<Requirement>, plan: Option<seq<Decision>>, r: Replies)
      returns (summary: Option<Summary>)
      requires plan.Some? ==> UniquePlan(plan.value)
      modifies this, links
      ensures summary.None? <==> !opts.scheduler || plan.None?
      ensures summary.None? ==> Now() == old(Now())
      ensures summary.Some? ==>
        && Now() == Perform(opts, old(Now()), Round(plan.value, r))
        && summary.value.total == |reqs| && Counts(summary.value, containers, |plan.value|)
      ensures old(Agrees()) ==>
        (Agrees() <==> summary.None? || CleanRound(opts, old(links.State()), old(containers), plan.value, r))
    {
      hide CleanRound, LiveAfter, On, Outcomes;
      if !opts.scheduler || plan.None? { return None; }
      var decisions := plan.value;
      var outcomes, current, deployed, local, remote, failed := DeployAll(decisions, r);
      var prev := containers;
      containers := current;
      OutcomesAre(opts, old(links.State()), decisions, r, outcomes);
      PlacementUnique(decisions, outcomes);
      ghost var deployedLive := live;
      ReconcileRelocations(prev, current, deployed, r.removed);
      ReconcileIsTornDown(opts, r, prev, decisions, outcomes, deployed);
      LiveAfterIs(opts, r, old(live), deployedLive, live, prev, decisions, outcomes);
      TrackedPlacement(decisions, outcomes);
      if old(Agrees()) { RoundAgreesIffClean(opts, old(links.State()), old(live), prev, decisions, outcomes, r); }
      summary := Some(Summary(|reqs|, local, remote, failed, current));
    }

    /** One decision of the deploy loop: skipped when the context is cancelled or the score is zero. */
    method DeployNext(d: Decision, i: nat, r: Replies) returns (o: Outcome)
      modifies this`live, links
      ensures o == OutcomeAt(opts, old(links.State()), d, r, i)
      ensures live == LiveAfterDeploy(old(live), DecisionKey(d), o)
      ensures links.State() == LinksNext(opts, old(links.State()), d, r, i)
    {
      hide WireEnd, Wire, WirePorts;
      if r.cancelled(i) || d.score == 0.0 { return Skipped; }
      o := DeployContainer(d, i, r);
    }

    /** The deploy loop of Distribute. */
    method DeployAll(decisions: seq<Decision>, r: Replies)
      returns (outcomes: seq<Outcome>, current: seq<Container>, deployed: set<string>,
               local: nat, remote: nat, failed: nat)
      requires UniquePlan(decisions)
      modifies this`live, links
      ensures |outcomes| == |decisions| && Decided(opts, old(links.State()), decisions, r, outcomes)
      ensures links.State() == LinksAt(opts, old(links.State()), decisions, r, |decisions|)
      ensures Progress(old(live), decisions, outcomes, live, current, deployed, local, remote)
      ensures local + remote + failed == |decisions|
    {
      hide Progress, OutcomeAt, LinksNext, LinksAt, Decided;
      current, deployed, outcomes := [], {}, [];
      local, remote, failed := 0, 0, 0;
      NoProgress(live, decisions);
      NoneDecided(opts, links.State(), decisions, r);
      for i := 0 to |decisions|
        invariant |outcomes| == i && Decided(opts, old(links.State()), decisions, r, outcomes)
        invariant links.State() == LinksAt(opts, old(links.State()), decisions, r, i)
        invariant Progress(old(live), decisions[..i], outcomes, live, current, deployed, local, remote)
        invariant local + remote + failed == i
      {
        var d := decisions[i];
        ghost var before := live;
        var o := DeployNext(d, i, r);
        DecidedGrows(opts, old(links.State()), decisions, r, outcomes, o);
        NextProgress(old(live), decisions, i, outcomes, before, current, deployed, local, remote, o);
        if !o.Skipped? { deployed := deployed + {d.req.name}; }
        if !o.Up? { failed := failed + 1; }
        else if NormHost(d.host) == "local" { local := local + 1; }
        else { remote := remote + 1; }
        current := current + [Placed(d, o)];
        outcomes := outcomes + [o];
      }
      assert decisions[..|decisions|] == decisions;
    }

    /** Rebalance: a new round over the requirements that are tracked. */
    method Rebalance(plan: Option<seq<Decision>>, r: Replies) returns (summary: Option<Summary>)
      requires plan.Some? ==> UniquePlan(plan.value)
      modifies this, links
      ensures summary.None? <==> !opts.scheduler || plan.None?
      ensures summary.Some? ==>
        && Now() == Perform(opts, old(Now()), Round(plan.value, r))
        && summary.value.total == |old(containers)| && Counts(summary.value, containers, |plan.value|)
      ensures summary.None? ==> Now() == old(Now())
      ensures old(Agrees()) ==>
        (Agrees() <==> summary.None? || CleanRound(opts, old(links.State()), old(containers), plan.value, r))
    {
      if !opts.scheduler { return None; }
      var reqs := [];
      for i := 0 to |containers|
        invariant |reqs| == i
      {
        reqs := reqs + [containers[i].req];
      }
      summary := Distribute(reqs, plan, r);
    }

    /**
     * Undistribute: nothing stays tracked, every tunnel is closed, and what was live is taken down wherever
     * the removal takes effect. `failed` names the placements whose teardown reports an error; volumes that
     * cannot be unmounted stay registered.
     */
    method Undistribute(down: Instance -> TeardownReply, unmounted: string -> UnmountReply)
      returns (failed: seq<string>)
      modifies this, links
      ensures Now() == Perform(opts, old(Now()), Operation.Undistribute(down, unmounted))
      ensures failed == TeardownErrors(opts, down, old(containers))
      ensures old(Agrees()) ==> (live == {} <==> AllTakenDown(opts, down, old(containers)))
    {
      hide AfterUnmountAll;
      var snapshot := containers;
      containers := [];
      failed := [];
      for i := 0 to |snapshot|
        invariant live == old(live) - TakenDown(opts, down, snapshot[..i])
        invariant containers == [] && links.mounts == old(links.mounts)
        invariant failed == TeardownErrors(opts, down, snapshot[..i])
      {
        var c := snapshot[i];
        assert snapshot[..i + 1] == snapshot[..i] + [c];
        if NeedsTeardown(c.state) {
          var bad := TeardownContainer(c, down(Key(c)));
          if bad { failed := failed + [c.req.name]; }
        }
      }
      assert snapshot[..|snapshot|] == snapshot;
      links.tunnels := {};
      links.UnmountAll(unmounted);
      if old(Agrees()) { TeardownExact(opts, down, snapshot); }
    }

    /**
     * CheckAndFailover: every running container whose name is on an offline host is marked migrating;
     * nothing else changes, so neither does the set that needs teardown. `online` answers lookup and probe for
     * each container; `plan` are the hosts the scheduler suggests, None when it fails.
     */
    method CheckAndFailover(online: nat -> bool, plan: Option<seq<string>>)
      returns (actions: seq<Action>, err: bool, ghost offline: set<string>)
      modifies this`containers
      ensures !opts.hostManager || !opts.executor ==> err && actions == [] && containers == old(containers)
      ensures opts.hostManager && opts.executor ==>
        && (forall h :: h in offline <==> Offline(old(containers), online, h))
        && Now() == Perform(opts, old(Now()), Failover(ActionNames(actions)))
        && var affected := AffectedOn(old(containers), offline);
          && (err <==> opts.scheduler && affected != [] && plan.None?)
          && actions == Rehosted(affected, if opts.scheduler && plan.Some? then plan.value else [])
      ensures Tracked(containers) == Tracked(old(containers)) && (old(Agrees()) ==> Agrees())
    {
      offline := {};
      if !opts.hostManager || !opts.executor { return [], true, offline; }
      var hosts := OfflineHosts(online);
      offline := hosts;
      actions := OnHosts(hosts);
      err := false;
      FlipKeepsTeardown(containers, ActionNames(actions));
      MarkMigrating(ActionNames(actions));
      if opts.scheduler && |actions| > 0 {
        if plan.None? {
          assert Rehosted(actions, []) == actions;
          err := true;
          return;
        }
        ghost var affected := actions;
        for i := 0 to |plan.value|
          invariant |actions| == |affected| && actions == Rehosted(affected, plan.value[..i])
        {
          if i < |actions| { actions := actions[i := actions[i].(newHost := plan.value[i])]; }
        }
        assert plan.value[..|plan.value|] == plan.value;
        SameNames(affected, plan.value);
      } else {
        assert Rehosted(actions, if opts.scheduler && plan.Some? then plan.value else []) == actions;
      }
    }

    method OfflineHosts(online: nat -> bool) returns (offline: set<string>)
      ensures forall h :: h in offline <==> Offline(containers, online, h)
    {
      offline := {};
      for i := 0 to |containers|
        invariant forall h :: h in offline <==> OfflineBefore(containers, online, h, i)
      {
        var h := containers[i].host;
        if h != "" && h != "local" && h !in offline && !online(i) { offline := offline + {h}; }
      }
    }

    method OnHosts(hosts: set<string>) returns (actions: seq<Action>)
      ensures actions == AffectedOn(containers, hosts)
    {
      actions := [];
      for i := 0 to |containers|
        invariant actions == AffectedOn(containers[..i], hosts)
      {
        assert containers[..i + 1][..i] == containers[..i];
        if containers[i].host in hosts {
          actions := actions + [Action(containers[i].req.name, containers[i].host, "")];
        }
      }
      assert containers[..|containers|] == containers;
    }

    method MarkMigrating(names: set<string>)
      modifies this`containers
      ensures containers == Flipped(old(containers), names)
    {
      for i := 0 to |containers|
        invariant |containers| == |old(containers)|
        invariant forall j :: 0 <= j < i ==> containers[j] == Flip(old(containers)[j], names)
        invariant forall j :: i <= j < |containers| ==> containers[j] == old(containers)[j]
      {
        var c := containers[i];
        if c.state.Running? && c.req.name in names {
          containers := containers[i := c.(state := Migrating)];
        }
      }
    }
  }

  datatype Action = Action(name: string, host: string, newHost: string)

  /** One action for each container on one of the hosts, in order. */
  function AffectedOn(cs: seq<Container>, hosts: set<string>): seq<Action> {
    if cs == [] then []
    else
      var c := cs[|cs| - 1];
      AffectedOn(cs[..|cs| - 1], hosts) + if c.host in hosts then [Action(c.req.name, c.host, "")] else []
  }

  /** The scheduler's hosts, handed out in order. */
  function Rehosted(actions: seq<Action>, hosts: seq<string>): seq<Action> {
    seq(|actions|, i requires 0 <= i < |actions| =>
      if i < |hosts| then actions[i].(newHost := hosts[i]) else actions[i])
  }

  lemma SameNames(actions: seq<Action>, hosts: seq<string>)
    ensures ActionNames(Rehosted(actions, hosts)) == ActionNames(actions)
  {
    var rehosted := Rehosted(actions, hosts);
    forall x ensures x in ActionNames(rehosted) <==> x in ActionNames(actions) {
      if x in ActionNames(rehosted) {
        var i :| 0 <= i < |rehosted| && rehosted[i].name == x;
        assert actions[i] in actions && actions[i].name == x;
      }
      if x in ActionNames(actions) {
        var i :| 0 <= i < |actions| && actions[i].name == x;
        assert rehosted[i] in rehosted && rehosted[i].name == x;
      }
    }
  }

  function TeardownErrors(opts: Options, down: Instance -> TeardownReply, cs: seq<Container>): seq<string> {
    if cs == [] then []
    else
      var c := cs[|cs| - 1];
      var before := TeardownErrors(opts, down, cs[..|cs| - 1]);
      if NeedsTeardown(c.state) && TeardownFails(opts, c.host, down(Key(c))) then before + [c.req.name] else before
  }

  function ActionNames(actions: seq<Action>): set<string> { set a | a in actions :: a.name }

  /** One of the first `n` containers finds its remote host unknown or unreachable. */
  ghost predicate OfflineBefore(cs: seq<Container>, online: nat -> bool, h: string, n: nat)
    requires n <= |cs|
  {
    exists i :: 0 <= i < n && cs[i].host == h && h != "" && h != "local" && !online(i)
  }

  ghost predicate Offline(cs: seq<Container>, online: nat -> bool, h: string) { OfflineBefore(cs, online, h, |cs|) }

  function Flip(c: Container, names: set<string>): Container {
    if c.state.Running? && c.req.name in names then c.(state := Migrating) else c
  }

  function Flipped(cs: seq<Container>, names: set<string>): seq<Container> {
    seq(|cs|, i requires 0 <= i < |cs| => Flip(cs[i], names))
  }

  /** Failover never changes which entries need teardown, where they are, or what they are called. */
  lemma FlipKeepsTeardown(cs: seq<Container>, names: set<string>)
    ensures Tracked(Flipped(cs, names)) == Tracked(cs)
    ensures UniqueNames(cs) ==> UniqueNames(Flipped(cs, names))
  {
    var fs := Flipped(cs, names);
    forall k: Instance ensures k in Tracked(fs) <==> k in Tracked(cs) {
      if k in Tracked(cs) {
        var i :| 0 <= i < |cs| && NeedsTeardown(cs[i].state) && Key(cs[i]) == k;
        assert fs[i] in fs && Key(fs[i]) == k;
      }
      if k in Tracked(fs) {
        var i :| 0 <= i < |fs| && NeedsTeardown(fs[i].state) && Key(fs[i]) == k;
        assert cs[i] in cs && Key(cs[i]) == k;
      }
    }
  }

  ghost function TakenDown(opts: Options, down: Instance -> TeardownReply, cs: seq<Container>): set<Instance> {
    set c | c in cs && NeedsTeardown(c.state) && TakesDown(opts, c.host, down(Key(c))) :: Key(c)
  }

  ghost predicate AllTakenDown(opts: Options, down: Instance -> TeardownReply, cs: seq<Container>) {
    forall c <- cs :: NeedsTeardown(c.state) ==> TakesDown(opts, c.host, down(Key(c)))
  }

  lemma TeardownExact(opts: Options, down: Instance -> TeardownReply, cs: seq<Container>)
    requires UniqueNames(cs)
    ensures Tracked(cs) - TakenDown(opts, down, cs) == {} <==> AllTakenDown(opts, down, cs)
  {
    if c :| c in cs && NeedsTeardown(c.state) && !TakesDown(opts, c.host, down(Key(c))) {
      assert forall e <- cs :: Key(e) == Key(c) ==> e == c;
      assert Key(c) in Tracked(cs) - TakenDown(opts, down, cs);
    }
  }

  lemma PlacementUnique(plan: seq<Decision>, outcomes: seq<Outcome>)
    requires |plan| == |outcomes| && UniquePlan(plan)
    ensures UniqueNames(Placement(plan, outcomes))
  {
  }

  /** The answers decide the outcomes. */
  lemma OutcomesAre(opts: Options, links: Links, plan: seq<Decision>, r: Replies, outcomes: seq<Outcome>)
    requires |outcomes| == |plan| && Decided(opts, links, plan, r, outcomes)
    ensures outcomes == Outcomes(opts, links, plan, r)
  {
    hide OutcomeAt, LinksAt;
    var those := Outcomes(opts, links, plan, r);
    forall i | 0 <= i < |plan| ensures outcomes[i] == those[i] {
      assert outcomes[i] == OutcomeAt(opts, LinksAt(opts, links, plan, r, i), plan[i], r, i);
    }
  }

  lemma ReconcileIsTornDown(opts: Options, r: Replies, prev: seq<Container>, plan: seq<Decision>,
                            outcomes: seq<Outcome>, deployed: set<string>)
    requires |plan| == |outcomes| && UniquePlan(plan)
    requires deployed == DeployedNames(plan, outcomes)
    ensures (set c | c in prev && NeedsTeardown(c.state) && TakesDown(opts, c.host, r.removed(Key(c))) &&
               !(c.req.name in deployed && PlacedAt(Placement(plan, outcomes), Key(c))) :: Key(c))
         == TornDown(opts, r, prev, plan, outcomes)
  {
    var current := Placement(plan, outcomes);
    forall c <- prev
      ensures InPlace(c, plan, outcomes) <==> c.req.name in deployed && PlacedAt(current, Key(c))
    {
      if i :| 0 <= i < |plan| && plan[i].req.name == c.req.name {
        assert current[i] in current && Key(current[i]) == DecisionKey(plan[i]);
      }
    }
  }

  lemma LiveAfterIs(opts: Options, r: Replies, live0: set<Instance>, mid: set<Instance>, live: set<Instance>,
                    prev: seq<Container>, plan: seq<Decision>, outcomes: seq<Outcome>)
    requires |plan| == |outcomes|
    requires mid == (live0 - ReapedBy(plan, outcomes)) + StartedBy(plan, outcomes) + StrandedBy(plan, outcomes)
    requires live == mid - TornDown(opts, r, prev, plan, outcomes)
    ensures live == LiveAfter(opts, r, live0, prev, plan, outcomes)
  {
  }

  // ----------------------------------------------------------------------- whole operations

  /** What is tracked, what runs, and what is open. */
  datatype World = World(containers: seq<Container>, live: set<Instance>, links: Links)

  /** Distribute and Rebalance are rounds; a failover flips; Undistribute clears. */
  datatype Operation =
    | Round(plan: seq<Decision>, r: Replies)
    | Failover(names: set<string>)
    | Undistribute(down: Instance -> TeardownReply, unmounted: string -> UnmountReply)

  ghost function Perform(opts: Options, w: World, op: Operation): World {
    match op
    case Round(plan, r) =>
      var outcomes := Outcomes(opts, w.links, plan, r);
      World(Placement(plan, outcomes), LiveAfter(opts, r, w.live, w.containers, plan, outcomes),
            LinksAt(opts, w.links, plan, r, |plan|))
    case Failover(names) => w.(containers := Flipped(w.containers, names))
    case Undistribute(down, unmounted) =>
      World([], w.live - TakenDown(opts, down, w.containers), Links({}, AfterUnmountAll(w.links.mounts, unmounted)))
  }
}
