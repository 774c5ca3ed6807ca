/** What a wiring needs and what it leaves, told port by port and mount by mount. */
module WiringFacts {
  import opened Wiring

  /** A mapping leads to its host port if it has one, to its container port otherwise. */
  lemma RemotePortReads(p: PortMapping)
    ensures p.hostPort > 0 ==> RemotePort(p) == Decimal.Itoa(p.hostPort) && Decimal.Value(RemotePort(p)) == p.hostPort
    ensures p.hostPort <= 0 < p.containerPort ==>
      RemotePort(p) == Decimal.Itoa(p.containerPort) && Decimal.Value(RemotePort(p)) == p.containerPort
  {
    if p.hostPort > 0 { Decimal.ValueOfItoa(p.hostPort); }
    else if p.containerPort > 0 { Decimal.ValueOfItoa(p.containerPort); }
  }

  /** The local port is the one the manager reports; without a report it is the remote one. */
  lemma LocalPortReads(p: PortMapping, local: string)
    ensures local != "" ==> LocalPort(p, TunnelInfo(local)) == local
    ensures local == "" && p.hostPort > 0 ==> LocalPort(p, TunnelInfo(local)) == Decimal.Itoa(p.hostPort)
    ensures local == "" && p.hostPort <= 0 < p.containerPort ==>
      LocalPort(p, TunnelInfo(local)) == Decimal.Itoa(p.containerPort)
  {
  }

  // ------------------------------------------------------------------------------- tunnels

  /** A tunnel for the port is asked for and granted on that local port. */
  ghost predicate TunnelledAt(ports: seq<PortMapping>, tunnel: nat -> TunnelReply, j: nat, local: string)
    requires j < |ports|
  {
    ports[j].containerPort > 0 && tunnel(j).TunnelInfo? && LocalPort(ports[j], tunnel(j)) == local
  }

  /** Every port that needs a tunnel is granted one, on a local port of its own that nobody uses. */
  ghost predicate TunnelsFree(open: set<string>, ports: seq<PortMapping>, tunnel: nat -> TunnelReply) {
    forall j :: 0 <= j < |ports| && ports[j].containerPort > 0 ==>
      && tunnel(j).TunnelInfo? && LocalPort(ports[j], tunnel(j)) !in open
      && forall i :: 0 <= i < j ==> !TunnelledAt(ports, tunnel, i, LocalPort(ports[j], tunnel(j)))
  }

  lemma {:induction false} OpenAfterIs(open: set<string>, ports: seq<PortMapping>, tunnel: nat -> TunnelReply, n: nat,
                                       x: string)
    requires n <= |ports|
    ensures x in OpenAfter(open, ports, tunnel, n) <==>
      x in open || exists j :: 0 <= j < n && TunnelledAt(ports, tunnel, j, x)
  {
    hide RemotePort, LocalPort;
    if n == 0 {
    } else {
      OpenAfterIs(open, ports, tunnel, n - 1, x);
      assert TunnelledAt(ports, tunnel, n - 1, x) ==> x in OpenAfter(open, ports, tunnel, n);
    }
  }

  lemma AllFitIff(open: set<string>, ports: seq<PortMapping>, tunnel: nat -> TunnelReply)
    ensures FitFrom(open, ports, tunnel, 0) == |ports| <==> TunnelsFree(open, ports, tunnel)
  {
    hide RemotePort, LocalPort, OpenAfter, FitFrom, TunnelledAt;
    FitFromIs(open, ports, tunnel, 0);
    forall j | 0 <= j < |ports|
      ensures FitsAt(open, ports, tunnel, j) <==>
        (ports[j].containerPort > 0 ==>
           && tunnel(j).TunnelInfo? && LocalPort(ports[j], tunnel(j)) !in open
           && forall i :: 0 <= i < j ==> !TunnelledAt(ports, tunnel, i, LocalPort(ports[j], tunnel(j))))
    {
      if tunnel(j).TunnelInfo? { OpenAfterIs(open, ports, tunnel, j, LocalPort(ports[j], tunnel(j))); }
    }
  }

  // -------------------------------------------------------------------------------- mounts

  /** Where a requested mount goes: to its own host, or to the container's. */
  function HostOf(m: VolumeMount, host: string): string { if m.host == "" then host else m.host }

  predicate Serves(m: VolumeMount, host: string, remotePath: string) { m.host == host && m.remotePath == remotePath }

  /** Nobody has the name or the remote path on that host, before the wiring or earlier in it. */
  ghost predicate Untaken(mounts: Mounts, requests: seq<VolumeMount>, host: string, j: nat)
    requires j < |requests|
  {
    var m := requests[j];
    && m.name !in mounts
    && (forall i :: 0 <= i < j ==> requests[i].name != m.name)
    && (forall n <- mounts :: !Serves(mounts[n].mount, HostOf(m, host), m.remotePath))
    && (forall i :: 0 <= i < j ==>
          HostOf(requests[i], host) != HostOf(m, host) || requests[i].remotePath != m.remotePath)
  }

  ghost predicate MountsFree(mounts: Mounts, host: string, r: WireReplies) {
    forall j :: 0 <= j < |r.mounts| ==>
      && r.mounts[j].name != "" && !r.mounts[j].kind.Unsupported? && r.mounted(j) == HostMounts
      && Untaken(mounts, r.mounts, host, j)
  }

  ghost predicate NamesDiffer(requests: seq<VolumeMount>, n: nat)
    requires n <= |requests|
  {
    forall i, j :: 0 <= i < j < n ==> requests[i].name != requests[j].name
  }

  /** What is registered once the first `n` requests have been mounted, all of them new. */
  lemma {:induction false} MountedAfterIs(mounts: Mounts, requests: seq<VolumeMount>, host: string, n: nat, x: string)
    requires n <= |requests| && NamesDiffer(requests, n)
    requires forall i :: 0 <= i < n ==> requests[i].name !in mounts
    ensures var after := MountedAfter(mounts, requests, host, n);
      && (x in after <==> x in mounts || exists i :: 0 <= i < n && requests[i].name == x)
      && (x in mounts ==> after[x] == mounts[x])
      && (forall i :: 0 <= i < n && requests[i].name == x ==>
            after[x] == MountInfo(requests[i].(host := HostOf(requests[i], host)), false))
  {
    if n == 0 {
    } else {
      MountedAfterIs(mounts, requests, host, n - 1, x);
      var m := requests[n - 1];
      assert At(m, host) == m.(host := HostOf(m, host));
      assert MountedAfter(mounts, requests, host, n) ==
        MountedAfter(mounts, requests, host, n - 1)[m.name := MountInfo(At(m, host), false)];
      assert forall i :: 0 <= i < n - 1 ==> requests[i].name != m.name;
    }
  }

  lemma MountFitsIff(mounts: Mounts, host: string, r: WireReplies, j: nat)
    requires j < |r.mounts| && NamesDiffer(r.mounts, j)
    requires forall i :: 0 <= i < j ==> r.mounts[i].name !in mounts
    ensures MountFits(mounts, host, r, j) <==>
      && r.mounts[j].name != "" && !r.mounts[j].kind.Unsupported? && r.mounted(j) == HostMounts
      && Untaken(mounts, r.mounts, host, j)
  {
    var m, before := r.mounts[j], MountedAfter(mounts, r.mounts, host, j);
    MountedAfterIs(mounts, r.mounts, host, j, m.name);
    CollisionFree(mounts, r.mounts, host, j);
  }

  ghost predicate ClashFree(mounts: Mounts, m: VolumeMount) { forall n <- mounts :: !Collides(mounts[n].mount, m) }

  lemma CollisionFree(mounts: Mounts, requests: seq<VolumeMount>, host: string, j: nat)
    requires j < |requests| && NamesDiffer(requests, j)
    requires forall i :: 0 <= i < j ==> requests[i].name !in mounts
    ensures var m := requests[j];
      ClashFree(MountedAfter(mounts, requests, host, j), At(m, host)) <==>
        && (forall n <- mounts :: !Serves(mounts[n].mount, HostOf(m, host), m.remotePath))
        && (forall i :: 0 <= i < j ==>
              HostOf(requests[i], host) != HostOf(m, host) || requests[i].remotePath != m.remotePath)
  {
    var m, before := requests[j], MountedAfter(mounts, requests, host, j);
    forall x: string
      ensures x in mounts ==> x in before && before[x] == mounts[x]
      ensures x in before && x !in mounts ==> exists i :: 0 <= i < j && requests[i].name == x
    {
      MountedAfterIs(mounts, requests, host, j, x);
    }
    forall i | 0 <= i < j
      ensures requests[i].name in before
      ensures before[requests[i].name] == MountInfo(requests[i].(host := HostOf(requests[i], host)), false)
    {
      MountedAfterIs(mounts, requests, host, j, requests[i].name);
    }
    if n :| n in before && Collides(before[n].mount, At(m, host)) {
      if n !in mounts {
        var i :| 0 <= i < j && requests[i].name == n;
        MountedAfterIs(mounts, requests, host, j, n);
        assert HostOf(requests[i], host) == HostOf(m, host) && requests[i].remotePath == m.remotePath;
      } else {
        assert before[n] == mounts[n] && Serves(mounts[n].mount, HostOf(m, host), m.remotePath);
      }
    } else {
      forall n <- mounts ensures !Serves(mounts[n].mount, HostOf(m, host), m.remotePath) {
        assert n in before && !Collides(before[n].mount, At(m, host));
      }
      forall i | 0 <= i < j
        ensures HostOf(requests[i], host) != HostOf(m, host) || requests[i].remotePath != m.remotePath
      {
        assert !Collides(before[requests[i].name].mount, At(m, host));
      }
    }
  }

  lemma {:induction false} NewSoFar(mounts: Mounts, host: string, r: WireReplies, n: nat)
    requires n <= |r.mounts| && forall j :: 0 <= j < n ==> MountFits(mounts, host, r, j)
    ensures NamesDiffer(r.mounts, n) && forall i :: 0 <= i < n ==> r.mounts[i].name !in mounts
    ensures forall j :: 0 <= j < n ==> Untaken(mounts, r.mounts, host, j)
  {
    hide MountFits, Untaken;
    if n == 0 {
    } else {
      NewSoFar(mounts, host, r, n - 1);
      MountFitsIff(mounts, host, r, n - 1);
      assert MountFits(mounts, host, r, n - 1);
      UntakenIsNew(mounts, r.mounts, host, n - 1);
    }
  }

  lemma UntakenIsNew(mounts: Mounts, requests: seq<VolumeMount>, host: string, j: nat)
    requires j < |requests| && Untaken(mounts, requests, host, j)
    ensures requests[j].name !in mounts && forall i :: 0 <= i < j ==> requests[i].name != requests[j].name
  {
  }

  lemma {:induction false} FreeFit(mounts: Mounts, host: string, r: WireReplies, n: nat)
    requires n <= |r.mounts| && MountsFree(mounts, host, r)
    ensures NamesDiffer(r.mounts, n) && forall j :: 0 <= j < n ==> MountFits(mounts, host, r, j)
  {
    hide MountFits, Untaken;
    if n == 0 {
    } else {
      FreeFit(mounts, host, r, n - 1);
      forall i | 0 <= i < n ensures r.mounts[i].name !in mounts { UntakenIsNew(mounts, r.mounts, host, i); }
      UntakenIsNew(mounts, r.mounts, host, n - 1);
      MountFitsIff(mounts, host, r, n - 1);
    }
  }

  lemma AllMountIff(mounts: Mounts, host: string, r: WireReplies)
    ensures MountFrom(mounts, host, r, 0) == |r.mounts| <==> MountsFree(mounts, host, r)
  {
    hide MountFits, Untaken, MountFrom;
    MountFromIs(mounts, host, r, 0);
    if MountFrom(mounts, host, r, 0) == |r.mounts| {
      forall j | 0 <= j < |r.mounts|
        ensures r.mounts[j].name != "" && !r.mounts[j].kind.Unsupported? && r.mounted(j) == HostMounts
        ensures Untaken(mounts, r.mounts, host, j)
      {
        NewSoFar(mounts, host, r, j);
        MountFitsIff(mounts, host, r, j);
      }
    }
    if MountsFree(mounts, host, r) { FreeFit(mounts, host, r, |r.mounts|); }
  }

  /** A request to mount registers the volume, as failed if the host does not mount it, or changes nothing. */
  lemma MountReads(mounts: Mounts, m: VolumeMount, reply: MountReply, x: string)
    ensures var after := AfterMount(mounts, m, reply);
      var taken := exists n <- mounts :: Serves(mounts[n].mount, m.host, m.remotePath);
      if m.name == "" || m.name in mounts || taken || reply == HostUnknown || m.kind == Unsupported then after == mounts
      else after == mounts[m.name := MountInfo(m, reply == HostFails)]
  {
    if n :| n in mounts && Serves(mounts[n].mount, m.host, m.remotePath) {
      assert Collides(mounts[n].mount, m);
    }
  }

  /** A request to unmount takes an sshfs or nfs mount away if the host does, and marks it failed if asked in vain. */
  lemma UnmountReads(mounts: Mounts, name: string, reply: UnmountReply)
    ensures var after := AfterUnmount(mounts, name, reply);
      if name !in mounts || reply == HostGone then after == mounts
      else if (mounts[name].mount.kind == Sshfs || mounts[name].mount.kind == Nfs) && reply == HostUnmounts
      then after == mounts - {name}
      else after == mounts[name := MountInfo(mounts[name].mount, true)]
  {
  }

  // ------------------------------------------------------------------------------- wirings

  /**
   * A wiring completes if and only if every port gets a local port of its own that nobody uses, where tunnels are
   * enabled, and every volume is new in name and remote path and mounted by its host.
   */
  lemma CompleteIff(links: Links, host: string, tunnels: bool, ports: seq<PortMapping>, r: WireReplies)
    ensures WireEnd(links, host, tunnels, ports, r).Complete? <==>
      (tunnels ==> TunnelsFree(links.tunnels, ports, r.tunnel)) && MountsFree(links.mounts, host, r)
  {
    hide FitFrom, MountFrom, TunnelsFree, MountsFree;
    AllFitIff(links.tunnels, ports, r.tunnel);
    AllMountIff(links.mounts, host, r);
  }

  /** A completed wiring adds exactly the local ports of the mappings that need a tunnel, and the requested volumes. */
  lemma CompleteLeaves(links: Links, host: string, tunnels: bool, ports: seq<PortMapping>, r: WireReplies, x: string)
    requires WireEnd(links, host, tunnels, ports, r).Complete?
    ensures var after := Wire(links, host, tunnels, ports, r);
      && (x in after.tunnels <==>
            x in links.tunnels || (tunnels && exists j :: 0 <= j < |ports| && TunnelledAt(ports, r.tunnel, j, x)))
      && (x in after.mounts <==> x in links.mounts || exists j :: 0 <= j < |r.mounts| && r.mounts[j].name == x)
      && (x in links.mounts ==> after.mounts[x] == links.mounts[x])
      && (forall j :: 0 <= j < |r.mounts| && r.mounts[j].name == x ==>
            after.mounts[x] == MountInfo(r.mounts[j].(host := HostOf(r.mounts[j], host)), false))
  {
    hide FitFrom, MountFrom, OpenAfter, MountedAfter, TunnelledAt, MountFits, Untaken;
    OpenAfterIs(links.tunnels, ports, r.tunnel, |ports|, x);
    MountFromIs(links.mounts, host, r, 0);
    NewSoFar(links.mounts, host, r, |r.mounts|);
    MountedAfterIs(links.mounts, r.mounts, host, |r.mounts|, x);
  }
}
