/** Tunnels and volume mounts of a remote deployment, and when opening them together is all or nothing. */
module Wiring {
  import opened Prelude
  import Decimal

  datatype PortMapping = PortMapping(hostPort: int, containerPort: int, protocol: string)

  /** The port on the remote host that a tunnel for `p` leads to. */
  function RemotePort(p: PortMapping): string {
    if p.hostPort > 0 then Decimal.IntText(p.hostPort) else Decimal.IntText(p.containerPort)
  }

  /** CreateTunnel's answer: an error, or the local port ("" when the manager reports none). */
  datatype TunnelReply = TunnelError | TunnelInfo(localPort: string)

  datatype MountKind = Sshfs | Nfs | Rsync | Unsupported

  datatype VolumeMount = VolumeMount(name: string, host: string, remotePath: string, kind: MountKind)

  /** A mount as the manager registers it; a failed one keeps its name and its remote path. */
  datatype MountInfo = MountInfo(mount: VolumeMount, failed: bool)

  /** What the host makes of a mount: it is unknown, it fails, or it mounts. */
  datatype MountReply = HostUnknown | HostFails | HostMounts

  /** What the host makes of an unmount. */
  datatype UnmountReply = HostGone | HostBusy | HostUnmounts

  /** What the managers answer during one wiring: per port, and per requested mount. */
  datatype WireReplies = WireReplies(
    tunnel: nat -> TunnelReply, mounts: seq<VolumeMount>, mounted: nat -> MountReply, unmounted: nat -> UnmountReply)

  /** How a wiring ends; a failure to mount says at which of the requested mounts. */
  datatype Wired = Complete | TunnelRefused | MountRefused(i: nat)

  type Mounts = map<string, MountInfo>

  // ------------------------------------------------------------------------------- tunnels

  /** The effective local port of a tunnel the manager reports. */
  function LocalPort(p: PortMapping, reply: TunnelReply): string
    requires reply.TunnelInfo?
  {
    if reply.localPort != "" then reply.localPort else RemotePort(p)
  }

  /** A port that needs no tunnel, or whose tunnel the manager opens on a local port not yet in use. */
  predicate Fits(open: set<string>, p: PortMapping, reply: TunnelReply) {
    p.containerPort > 0 ==> reply.TunnelInfo? && LocalPort(p, reply) !in open
  }

  /** The open tunnels once the first `n` ports have been tunnelled. */
  ghost function OpenAfter(open: set<string>, ports: seq<PortMapping>, replies: nat -> TunnelReply, n: nat): set<string>
    requires n <= |ports|
  {
    if n == 0 then open
    else
      var before := OpenAfter(open, ports, replies, n - 1);
      if ports[n - 1].containerPort > 0 && replies(n - 1).TunnelInfo?
      then before + {LocalPort(ports[n - 1], replies(n - 1))} else before
  }

  lemma OpenNext(open: set<string>, ports: seq<PortMapping>, replies: nat -> TunnelReply, n: nat)
    requires n < |ports| && FitsAt(open, ports, replies, n)
    ensures OpenAfter(open, ports, replies, n + 1) ==
      OpenAfter(open, ports, replies, n) + if ports[n].containerPort > 0 then {LocalPort(ports[n], replies(n))} else {}
  {
    hide RemotePort, LocalPort;
    var before := OpenAfter(open, ports, replies, n);
    if ports[n].containerPort <= 0 { assert before + {} == before; }
  }

  lemma OpenNone(open: set<string>, ports: seq<PortMapping>, replies: nat -> TunnelReply)
    ensures OpenAfter(open, ports, replies, 0) == open
  {
  }

  /** The `i`th port fits once those before it have been tunnelled. */
  ghost predicate FitsAt(open: set<string>, ports: seq<PortMapping>, replies: nat -> TunnelReply, i: nat)
    requires i < |ports|
  {
    Fits(OpenAfter(open, ports, replies, i), ports[i], replies(i))
  }

  /** How many ports, from the `n`th on, can be tunnelled before the first refusal. */
  ghost function FitFrom(open: set<string>, ports: seq<PortMapping>, replies: nat -> TunnelReply, n: nat): (k: nat)
    requires n <= |ports|
    ensures n <= k <= |ports|
    decreases |ports| - n
  {
    if n == |ports| || !FitsAt(open, ports, replies, n) then n
    else FitFrom(open, ports, replies, n + 1)
  }

  /** Everything before the first refusal fits, and the refused port does not. */
  lemma {:induction false} FitFromIs(open: set<string>, ports: seq<PortMapping>, replies: nat -> TunnelReply, n: nat)
    requires n <= |ports|
    ensures var k := FitFrom(open, ports, replies, n);
      && (forall i :: n <= i < k ==> FitsAt(open, ports, replies, i))
      && (k < |ports| ==> !FitsAt(open, ports, replies, k))
    decreases |ports| - n
  {
    hide RemotePort, LocalPort;
    if n == |ports| || !FitsAt(open, ports, replies, n) {
    } else {
      FitFromIs(open, ports, replies, n + 1);
    }
  }

  /** What is recorded for the first `n` ports: the local port by remote port, a later mapping over an earlier one. */
  function Recorded(ports: seq<PortMapping>, replies: nat -> TunnelReply, n: nat): map<string, string>
    requires n <= |ports|
  {
    if n == 0 then map[]
    else
      var before := Recorded(ports, replies, n - 1);
      if ports[n - 1].containerPort > 0 && replies(n - 1).TunnelInfo?
      then before[RemotePort(ports[n - 1]) := LocalPort(ports[n - 1], replies(n - 1))] else before
  }

  // -------------------------------------------------------------------------------- mounts

  predicate Collides(a: VolumeMount, b: VolumeMount) { a.host == b.host && a.remotePath == b.remotePath }

  /** The manager registers the mount: a new name, and a remote path nobody else uses on that host. */
  predicate Registers(mounts: Mounts, m: VolumeMount, reply: MountReply) {
    && m.name != "" && m.name !in mounts
    && (forall n <- mounts :: !Collides(mounts[n].mount, m))
    && !reply.HostUnknown? && !m.kind.Unsupported?
  }

  predicate Mountable(mounts: Mounts, m: VolumeMount, reply: MountReply) {
    Registers(mounts, m, reply) && reply.HostMounts?
  }

  /** Rsync mounts are copies: there is nothing to unmount. */
  predicate Unmountable(m: VolumeMount, reply: UnmountReply) {
    (m.kind.Sshfs? || m.kind.Nfs?) && reply.HostUnmounts?
  }

  /** A registered mount that an unmount leaves registered. */
  predicate Stays(mounts: Mounts, replies: string -> UnmountReply, n: string) {
    n in mounts && !Unmountable(mounts[n].mount, replies(n))
  }

  /** A mount without a host is for the container's host. */
  function At(m: VolumeMount, host: string): VolumeMount { if m.host == "" then m.(host := host) else m }

  /** The registered mounts once the first `n` requests have succeeded. */
  ghost function MountedAfter(mounts: Mounts, requests: seq<VolumeMount>, host: string, n: nat): Mounts
    requires n <= |requests|
  {
    if n == 0 then mounts
    else
      var m := requests[n - 1];
      MountedAfter(mounts, requests, host, n - 1)[m.name := MountInfo(At(m, host), false)]
  }

  ghost predicate MountFits(mounts: Mounts, host: string, r: WireReplies, i: nat)
    requires i < |r.mounts|
  {
    Mountable(MountedAfter(mounts, r.mounts, host, i), At(r.mounts[i], host), r.mounted(i))
  }

  /** The first request from the `n`th on that cannot be mounted, or their number. */
  ghost function MountFrom(mounts: Mounts, host: string, r: WireReplies, n: nat): (k: nat)
    requires n <= |r.mounts|
    ensures n <= k <= |r.mounts|
    decreases |r.mounts| - n
  {
    if n == |r.mounts| || !MountFits(mounts, host, r, n) then n else MountFrom(mounts, host, r, n + 1)
  }

  lemma {:induction false} MountFromIs(mounts: Mounts, host: string, r: WireReplies, n: nat)
    requires n <= |r.mounts|
    ensures var k := MountFrom(mounts, host, r, n);
      (forall i :: n <= i < k ==> MountFits(mounts, host, r, i)) && (k < |r.mounts| ==> !MountFits(mounts, host, r, k))
    decreases |r.mounts| - n
  {
    if n == |r.mounts| || !MountFits(mounts, host, r, n) {
    } else {
      MountFromIs(mounts, host, r, n + 1);
    }
  }

  /** The registered mounts after a request to mount. */
  function AfterMount(mounts: Mounts, m: VolumeMount, reply: MountReply): Mounts {
    if Registers(mounts, m, reply) then mounts[m.name := MountInfo(m, !reply.HostMounts?)] else mounts
  }

  /** The registered mounts after a request to unmount: gone, or marked failed if the host was asked in vain. */
  function AfterUnmount(mounts: Mounts, name: string, reply: UnmountReply): Mounts {
    if name !in mounts || reply.HostGone? then mounts
    else if Unmountable(mounts[name].mount, reply) then mounts - {name}
    else mounts[name := mounts[name].(failed := true)]
  }

  /** The first `n` requests unmounted again, one after the other. */
  ghost function Unwound(mounts: Mounts, requests: seq<VolumeMount>, n: nat, replies: nat -> UnmountReply): Mounts
    requires n <= |requests|
  {
    if n == 0 then mounts
    else AfterUnmount(Unwound(mounts, requests, n - 1, replies), requests[n - 1].name, replies(n - 1))
  }

  /** What a failed mount and the unwinding of those before it leave. */
  ghost function AfterRefusal(mounts: Mounts, host: string, r: WireReplies, i: nat): Mounts
    requires i < |r.mounts|
  {
    var before := MountedAfter(mounts, r.mounts, host, i);
    Unwound(AfterMount(before, At(r.mounts[i], host), r.mounted(i)), r.mounts, i, r.unmounted)
  }

  // -------------------------------------------------------------------------------- wirings

  /** The open tunnels and the registered mounts. */
  datatype Links = Links(tunnels: set<string>, mounts: Mounts)

  /** How the answers decide a wiring on a remote host. */
  ghost function WireEnd(links: Links, host: string, tunnels: bool, ports: seq<PortMapping>, r: WireReplies): Wired {
    if tunnels && FitFrom(links.tunnels, ports, r.tunnel, 0) < |ports| then TunnelRefused
    else
      var i := MountFrom(links.mounts, host, r, 0);
      if i < |r.mounts| then MountRefused(i) else Complete
  }

  ghost function Wire(links: Links, host: string, tunnels: bool, ports: seq<PortMapping>, r: WireReplies): Links {
    match WireEnd(links, host, tunnels, ports, r)
    case TunnelRefused => links
    case MountRefused(i) =>
      if i < |r.mounts| then links.(mounts := AfterRefusal(links.mounts, host, r, i)) else links
    case Complete =>
      Links(if tunnels then OpenAfter(links.tunnels, ports, r.tunnel, |ports|) else links.tunnels,
            MountedAfter(links.mounts, r.mounts, host, |r.mounts|))
  }

  /** The tunnel ports recorded with the container, also when the wiring fails later on. */
  ghost function WirePorts(links: Links, tunnels: bool, ports: seq<PortMapping>, r: WireReplies): map<string, string> {
    if tunnels then Recorded(ports, r.tunnel, FitFrom(links.tunnels, ports, r.tunnel, 0)) else map[]
  }

  /**
   * What a caller can check about a failed mount: it was refused before it was registered, and each mount
   * made before it can be unmounted again.
   */
  ghost predicate Unwinds(mounts: Mounts, host: string, r: WireReplies, i: nat)
    requires i < |r.mounts|
  {
    && !Registers(MountedAfter(mounts, r.mounts, host, i), At(r.mounts[i], host), r.mounted(i))
    && forall j :: 0 <= j < i ==> Unmountable(At(r.mounts[j], host), r.unmounted(j))
  }

  // ------------------------------------------------------------------------------ managers

  /** The tunnel and volume managers: open tunnels by local port, registered mounts by name. */
  class RemoteLinks {
    var tunnels: set<string>
    var mounts: Mounts

    constructor ()
      ensures tunnels == {} && mounts == map[]
    {
      tunnels, mounts := {}, map[];
    }

    /** A local port that already carries a tunnel is refused; the effective port is returned. */
    method CreateTunnel(p: PortMapping, reply: TunnelReply) returns (port: Option<string>)
      requires p.containerPort > 0
      modifies this`tunnels
      ensures port.Some? <==> Fits(old(tunnels), p, reply)
      ensures port.None? ==> tunnels == old(tunnels)
      ensures port.Some? ==> port.value == LocalPort(p, reply) && tunnels == old(tunnels) + {port.value}
    {
      if reply.TunnelError? { return None; }
      var localPort := LocalPort(p, reply);
      if localPort in tunnels { return None; }
      tunnels := tunnels + {localPort};
      return Some(localPort);
    }

    method CloseTunnels(ports: seq<string>)
      modifies this`tunnels
      ensures tunnels == old(tunnels) - (set x | x in ports)
    {
      for i := 0 to |ports|
        invariant tunnels == old(tunnels) - (set x | x in ports[..i])
      {
        assert ports[..i + 1] == ports[..i] + [ports[i]];
        tunnels := tunnels - {ports[i]};
      }
      assert ports[..|ports|] == ports;
    }

    /** Mount: a mount that fails at the host stays registered as failed. */
    method Mount(m: VolumeMount, reply: MountReply) returns (ok: bool)
      modifies this`mounts
      ensures ok <==> Mountable(old(mounts), m, reply)
      ensures mounts == AfterMount(old(mounts), m, reply)
    {
      if m.name == "" || m.name in mounts { return false; }
      if exists n <- mounts :: Collides(mounts[n].mount, m) { return false; }
      if reply.HostUnknown? || m.kind.Unsupported? { return false; }
      ok := reply.HostMounts?;
      mounts := mounts[m.name := MountInfo(m, !ok)];
    }

    /** Unmount: the entry goes only when the host has unmounted it. */
    method Unmount(name: string, reply: UnmountReply) returns (ok: bool)
      modifies this`mounts
      ensures ok <==> name in old(mounts) && Unmountable(old(mounts)[name].mount, reply)
      ensures mounts == AfterUnmount(old(mounts), name, reply)
    {
      if name !in mounts || reply.HostGone? { return false; }
      var info := mounts[name];
      if (info.mount.kind.Sshfs? || info.mount.kind.Nfs?) && reply.HostUnmounts? {
        mounts := mounts - {name};
        return true;
      }
      mounts := mounts[name := info.(failed := true)];
      return false;
    }

    /** UnmountAll: what cannot be unmounted stays registered. */
    method UnmountAll(replies: string -> UnmountReply)
      modifies this`mounts
      ensures mounts == AfterUnmountAll(old(mounts), replies)
    {
      var todo := mounts.Keys;
      ghost var target := AfterUnmountAll(mounts, replies);
      while todo != {}
        invariant forall n :: Same(mounts, if n in todo then old(mounts) else target, n)
        decreases todo
      {
        var n :| n in todo;
        todo := todo - {n};
        assert Same(mounts, old(mounts), n);
        var _ := Unmount(n, replies(n));
      }
      SameMounts(mounts, target);
    }

    /** One tunnel for every positive container port; on an error all of them are closed again. */
    method OpenTunnels(ports: seq<PortMapping>, replies: nat -> TunnelReply)
      returns (ok: bool, tunnelPorts: map<string, string>, created: seq<string>)
      modifies this`tunnels
      ensures ok <==> FitFrom(old(tunnels), ports, replies, 0) == |ports|
      ensures tunnelPorts == Recorded(ports, replies, FitFrom(old(tunnels), ports, replies, 0))
      ensures !ok ==> tunnels == old(tunnels)
      ensures ok ==> tunnels == OpenAfter(old(tunnels), ports, replies, |ports|)
      ensures ok ==> (set x | x in created) == tunnels - old(tunnels) && old(tunnels) <= tunnels
    {
      hide RemotePort, LocalPort, OpenAfter;
      ok, tunnelPorts, created := true, map[], [];
      OpenNone(tunnels, ports, replies);
      for i := 0 to |ports|
        invariant ok && FitFrom(old(tunnels), ports, replies, 0) == FitFrom(old(tunnels), ports, replies, i)
        invariant tunnels == OpenAfter(old(tunnels), ports, replies, i) && tunnelPorts == Recorded(ports, replies, i)
        invariant old(tunnels) <= tunnels && forall x :: x in created <==> x in tunnels && x !in old(tunnels)
      {
        if ports[i].containerPort > 0 {
          var port := CreateTunnel(ports[i], replies(i));
          if port.None? {
            CloseTunnels(created);
            return false, tunnelPorts, created;
          }
          tunnelPorts := tunnelPorts[RemotePort(ports[i]) := port.value];
          created := created + [port.value];
        }
        OpenNext(old(tunnels), ports, replies, i);
      }
    }

    /** Unmount the mounts of a failed wiring, in the order they were made; errors are ignored. */
    method UnwindMounts(requests: seq<VolumeMount>, n: nat, replies: nat -> UnmountReply)
      requires n <= |requests|
      modifies this`mounts
      ensures mounts == Unwound(old(mounts), requests, n, replies)
    {
      for i := 0 to n
        invariant mounts == Unwound(old(mounts), requests, i, replies)
      {
        var _ := Unmount(requests[i].name, replies(i));
      }
    }

    /** The requested mounts, one after the other; on an error those already made are unmounted. */
    method MountVolumes(host: string, r: WireReplies) returns (w: Wired, volumeMounts: seq<string>)
      modifies this`mounts
      ensures var i := MountFrom(old(mounts), host, r, 0);
        if i == |r.mounts| then w == Complete && mounts == MountedAfter(old(mounts), r.mounts, host, i)
        else w == MountRefused(i) && mounts == AfterRefusal(old(mounts), host, r, i)
      ensures |volumeMounts| == MountFrom(old(mounts), host, r, 0)
      ensures forall j :: 0 <= j < |volumeMounts| ==> volumeMounts[j] == r.mounts[j].name
    {
      hide Registers, MountedAfter, Unwound;
      volumeMounts := [];
      MountedNone(mounts, r.mounts, host);
      for i := 0 to |r.mounts|
        invariant mounts == MountedAfter(old(mounts), r.mounts, host, i)
        invariant MountFrom(old(mounts), host, r, 0) == MountFrom(old(mounts), host, r, i)
        invariant |volumeMounts| == i && forall j :: 0 <= j < i ==> volumeMounts[j] == r.mounts[j].name
      {
        var done := Mount(At(r.mounts[i], host), r.mounted(i));
        if !done {
          UnwindMounts(r.mounts, i, r.unmounted);
          return MountRefused(i), volumeMounts;
        }
        MountedNext(old(mounts), host, r, i);
        volumeMounts := volumeMounts + [r.mounts[i].name];
      }
      w := Complete;
    }

    ghost function State(): Links
      reads this
    {
      Links(tunnels, mounts)
    }

    /** wireTunnelsAndVolumes: how it ends, what it leaves open and registered and what it records. */
    method WireTunnelsAndVolumes(host: string, local: bool, enableTunnels: bool, ports: seq<PortMapping>,
                                 r: WireReplies)
      returns (w: Wired, tunnelPorts: map<string, string>, volumeMounts: seq<string>)
      modifies this
      ensures local ==> w.Complete? && State() == old(State()) && tunnelPorts == map[]
      ensures !local ==>
        && w == WireEnd(old(State()), host, enableTunnels, ports, r)
        && State() == Wire(old(State()), host, enableTunnels, ports, r)
        && tunnelPorts == WirePorts(old(State()), enableTunnels, ports, r)
    {
      hide MountFits, RemotePort, OpenAfter, MountedAfter, Recorded, AfterRefusal;
      w, tunnelPorts, volumeMounts := Complete, map[], [];
      if local { return; }
      var created := [];
      if enableTunnels {
        var ok;
        ok, tunnelPorts, created := OpenTunnels(ports, r.tunnel);
        if !ok { return TunnelRefused, tunnelPorts, volumeMounts; }
      }
      w, volumeMounts := MountVolumes(host, r);
      if w.MountRefused? {
        CloseTunnels(created);
        assert tunnels == old(tunnels);
      }
    }
  }

  /** What is left of the registered mounts when every one of them has been asked to unmount. */
  ghost function AfterUnmountAll(mounts: Mounts, replies: string -> UnmountReply): Mounts {
    map n | n in mounts && Stays(mounts, replies, n) :: AfterUnmount(mounts, n, replies(n))[n]
  }

  // ------------------------------------------------------------------------ about wirings

  /** A wiring that fails leaves the tunnels as they were, and one that completes opens new ones only. */
  lemma WireTunnels(links: Links, host: string, tunnels: bool, ports: seq<PortMapping>, r: WireReplies)
    ensures links.tunnels <= Wire(links, host, tunnels, ports, r).tunnels
    ensures !WireEnd(links, host, tunnels, ports, r).Complete? ==>
      Wire(links, host, tunnels, ports, r).tunnels == links.tunnels
  {
    hide MountedAfter, AfterRefusal;
    OpenGrows(links.tunnels, ports, r.tunnel, |ports|);
  }

  lemma {:induction false} OpenGrows(open: set<string>, ports: seq<PortMapping>, replies: nat -> TunnelReply, n: nat)
    requires n <= |ports|
    ensures open <= OpenAfter(open, ports, replies, n)
  {
    hide RemotePort, LocalPort;
    if n == 0 {
    } else {
      OpenGrows(open, ports, replies, n - 1);
    }
  }

  /** All or nothing: a failed wiring restores the mounts exactly when the failed request unwinds. */
  lemma WireRestoresIff(links: Links, host: string, tunnels: bool, ports: seq<PortMapping>, r: WireReplies)
    requires !WireEnd(links, host, tunnels, ports, r).Complete?
    ensures match WireEnd(links, host, tunnels, ports, r)
      case TunnelRefused => Wire(links, host, tunnels, ports, r) == links
      case MountRefused(i) =>
        i < |r.mounts| && (Wire(links, host, tunnels, ports, r) == links <==> Unwinds(links.mounts, host, r, i))
      case Complete => true
  {
    hide AfterRefusal, Unwinds;
    var w := WireEnd(links, host, tunnels, ports, r);
    if w.MountRefused? { RefusalRestoresIff(links.mounts, host, r, w.i); }
  }

  /** No wiring forgets a mount that was registered before. */
  lemma WireKeepsMounts(links: Links, host: string, tunnels: bool, ports: seq<PortMapping>, r: WireReplies)
    ensures links.mounts.Keys <= Wire(links, host, tunnels, ports, r).mounts.Keys
  {
    hide AfterRefusal;
    var k := MountFrom(links.mounts, host, r, 0);
    MountFromIs(links.mounts, host, r, 0);
    FitsAreNew(links.mounts, host, r, k);
    forall x <- links.mounts ensures x in Wire(links, host, tunnels, ports, r).mounts {
      if k < |r.mounts| { RefusalKeeps(links.mounts, host, r, k, x); }
      assert !Named(r.mounts, k, x) && Same(links.mounts, MountedAfter(links.mounts, r.mounts, host, k), x);
    }
  }

  /** A completed wiring has registered every requested mount, none of which was registered before. */
  lemma CompleteMounts(links: Links, host: string, tunnels: bool, ports: seq<PortMapping>, r: WireReplies, j: nat)
    requires WireEnd(links, host, tunnels, ports, r).Complete? && j < |r.mounts|
    ensures r.mounts[j].name !in links.mounts && r.mounts[j].name in Wire(links, host, tunnels, ports, r).mounts
  {
    MountFromIs(links.mounts, host, r, 0);
    FitsAreNew(links.mounts, host, r, |r.mounts|);
    assert InPlace(MountedAfter(links.mounts, r.mounts, host, |r.mounts|), r.mounts, host, j);
  }

  lemma MountedNone(mounts: Mounts, requests: seq<VolumeMount>, host: string)
    ensures MountedAfter(mounts, requests, host, 0) == mounts
  {
  }

  lemma MountedNext(mounts: Mounts, host: string, r: WireReplies, i: nat)
    requires i < |r.mounts|
    ensures MountedAfter(mounts, r.mounts, host, i + 1) ==
      MountedAfter(mounts, r.mounts, host, i)[r.mounts[i].name := MountInfo(At(r.mounts[i], host), false)]
  {
  }

  /** Mounts that fit one after the other have new names, all different, and nothing else changes. */
  lemma {:induction false} FitsAreNew(mounts: Mounts, host: string, r: WireReplies, n: nat)
    requires n <= |r.mounts| && forall j :: 0 <= j < n ==> MountFits(mounts, host, r, j)
    ensures New(mounts, r.mounts, n)
    ensures forall j :: 0 <= j < n ==> InPlace(MountedAfter(mounts, r.mounts, host, n), r.mounts, host, j)
    ensures forall x :: !Named(r.mounts, n, x) ==> Same(mounts, MountedAfter(mounts, r.mounts, host, n), x)
  {
    if n == 0 {
    } else {
      FitsAreNew(mounts, host, r, n - 1);
      var before := MountedAfter(mounts, r.mounts, host, n - 1);
      assert MountFits(mounts, host, r, n - 1) && r.mounts[n - 1].name !in before;
      forall j | 0 <= j < n - 1 ensures r.mounts[j].name != r.mounts[n - 1].name {
        assert InPlace(before, r.mounts, host, j);
      }
      forall j | 0 <= j < n ensures InPlace(MountedAfter(mounts, r.mounts, host, n), r.mounts, host, j) {
        if j < n - 1 { assert InPlace(before, r.mounts, host, j); }
      }
      if !Named(r.mounts, n - 1, r.mounts[n - 1].name) { assert Same(mounts, before, r.mounts[n - 1].name); }
      forall x | !Named(r.mounts, n, x) ensures Same(mounts, MountedAfter(mounts, r.mounts, host, n), x) {
        assert Named(r.mounts, n, r.mounts[n - 1].name);
        assert !Named(r.mounts, n - 1, x);
        assert Same(mounts, before, x);
      }
    }
  }

  /** Unwinding one mount after the other: each is gone if it can be unmounted, and nothing else is touched. */
  lemma {:induction false} UnwoundFacts(before: Mounts, mid: Mounts, requests: seq<VolumeMount>, host: string, n: nat,
                                        m: nat, replies: nat -> UnmountReply)
    requires n <= m <= |requests| && New(before, requests, m)
    requires forall j :: 0 <= j < m ==> InPlace(mid, requests, host, j)
    ensures var u := Unwound(mid, requests, n, replies);
      && (forall j :: 0 <= j < n ==> (requests[j].name in u <==> !Unmountable(At(requests[j], host), replies(j))))
      && (forall j :: n <= j < m ==> InPlace(u, requests, host, j))
      && (forall x :: !Named(requests, n, x) ==> Same(mid, u, x))
  {
    if n == 0 {
    } else {
      UnwoundFacts(before, mid, requests, host, n - 1, m, replies);
      var u, u' := Unwound(mid, requests, n - 1, replies), Unwound(mid, requests, n, replies);
      assert InPlace(u, requests, host, n - 1);
      forall x | x != requests[n - 1].name ensures Same(u, u', x) {}
      forall x | !Named(requests, n, x) ensures Same(mid, u', x) {
        assert x != requests[n - 1].name && !Named(requests, n - 1, x);
        assert Same(mid, u, x) && Same(u, u', x);
      }
      forall j | n <= j < m ensures InPlace(u', requests, host, j) {
        assert InPlace(u, requests, host, j) && requests[j].name != requests[n - 1].name;
        assert Same(u, u', requests[j].name);
      }
      forall j | 0 <= j < n - 1
        ensures requests[j].name in u' <==> !Unmountable(At(requests[j], host), replies(j))
      {
        assert Same(u, u', requests[j].name);
      }
    }
  }

  /** A failed mount leaves the ones before it in place, and at most its own entry beside them. */
  lemma RefusalFacts(mounts: Mounts, host: string, r: WireReplies, i: nat)
    requires i < |r.mounts| && forall j :: 0 <= j < i ==> MountFits(mounts, host, r, j)
    ensures var before := MountedAfter(mounts, r.mounts, host, i); var m := At(r.mounts[i], host);
      var mid, after := AfterMount(before, m, r.mounted(i)), AfterRefusal(mounts, host, r, i);
      && New(mounts, r.mounts, i)
      && (Registers(before, m, r.mounted(i)) ==> !Named(r.mounts, i, m.name))
      && (forall j :: 0 <= j < i ==>
            (r.mounts[j].name in after <==> !Unmountable(At(r.mounts[j], host), r.unmounted(j))))
      && (forall x :: !Named(r.mounts, i, x) ==> Same(mid, after, x) && Same(mounts, before, x))
  {
    FitsAreNew(mounts, host, r, i);
    var before, m := MountedAfter(mounts, r.mounts, host, i), At(r.mounts[i], host);
    var mid := AfterMount(before, m, r.mounted(i));
    forall j | 0 <= j < i
      ensures InPlace(mid, r.mounts, host, j) && (Registers(before, m, r.mounted(i)) ==> r.mounts[j].name != m.name)
    {
      assert InPlace(before, r.mounts, host, j);
    }
    UnwoundFacts(mounts, mid, r.mounts, host, i, i, r.unmounted);
  }

  lemma RefusalKeeps(mounts: Mounts, host: string, r: WireReplies, i: nat, x: string)
    requires i < |r.mounts| && (forall j :: 0 <= j < i ==> MountFits(mounts, host, r, j)) && x in mounts
    ensures x in AfterRefusal(mounts, host, r, i)
  {
    hide AfterRefusal, Registers;
    RefusalFacts(mounts, host, r, i);
    assert !Named(r.mounts, i, x);
  }

  lemma RefusalRestoresIff(mounts: Mounts, host: string, r: WireReplies, i: nat)
    requires i == MountFrom(mounts, host, r, 0) < |r.mounts|
    ensures AfterRefusal(mounts, host, r, i) == mounts <==> Unwinds(mounts, host, r, i)
  {
    hide AfterRefusal, Registers;
    MountFromIs(mounts, host, r, 0);
    RefusalFacts(mounts, host, r, i);
    var before, m := MountedAfter(mounts, r.mounts, host, i), At(r.mounts[i], host);
    var mid, after := AfterMount(before, m, r.mounted(i)), AfterRefusal(mounts, host, r, i);
    if Registers(before, m, r.mounted(i)) {
      RegisteredIsNew(before, m, r.mounted(i));
      assert Same(mid, after, m.name) && Same(mounts, before, m.name);
    } else if Unwinds(mounts, host, r, i) {
      forall x ensures Same(mounts, after, x) {
        if !Named(r.mounts, i, x) { assert Same(mid, after, x) && Same(mounts, before, x); }
      }
      SameMounts(mounts, after);
    } else {
      var j :| 0 <= j < i && !Unmountable(At(r.mounts[j], host), r.unmounted(j));
      assert r.mounts[j].name in after && r.mounts[j].name !in mounts;
    }
  }

  lemma RegisteredIsNew(mounts: Mounts, m: VolumeMount, reply: MountReply)
    requires Registers(mounts, m, reply)
    ensures m.name !in mounts && m.name in AfterMount(mounts, m, reply)
  {
  }

  /** Two mounts, the first by rsync, the second failing at the host: whatever the host unmounts, both names stay. */
  lemma LeftoverExample()
    ensures var data, logs := VolumeMount("data", "h", "/data", Rsync), VolumeMount("logs", "h", "/logs", Nfs);
      var mounted := (i: nat) => if i == 0 then HostMounts else HostFails;
      var r := WireReplies(_ => TunnelError, [data, logs], mounted, _ => HostUnmounts);
      && WireEnd(Links({}, map[]), "h", false, [], r) == MountRefused(1)
      && Wire(Links({}, map[]), "h", false, [], r).mounts.Keys == {"data", "logs"}
  {
    var data, logs := VolumeMount("data", "h", "/data", Rsync), VolumeMount("logs", "h", "/logs", Nfs);
    var mounted := (i: nat) => if i == 0 then HostMounts else HostFails;
    var r := WireReplies(_ => TunnelError, [data, logs], mounted, _ => HostUnmounts);
    MountedNone(map[], r.mounts, "h");
    MountedNext(map[], "h", r, 0);
    assert MountFits(map[], "h", r, 0) && !MountFits(map[], "h", r, 1);
    assert MountFrom(map[], "h", r, 0) == MountFrom(map[], "h", r, 1) == 1;
    var before: Mounts := map["data" := MountInfo(data, false)];
    assert MountedAfter(map[], r.mounts, "h", 1) == before;
    assert AfterMount(before, logs, HostFails) == before["logs" := MountInfo(logs, true)];
    var marked := before["logs" := MountInfo(logs, true)];
    assert Unwound(marked, r.mounts, 0, r.unmounted) == marked;
  }

  // ------------------------------------------------------------------- tunnels and records

  /** The local ports in a record. */
  function LocalPorts(record: map<string, string>): set<string> { set p | p in record :: record[p] }

  /** No two positive mappings of a container lead to the same remote port. */
  ghost predicate RemotePortsDiffer(ports: seq<PortMapping>) {
    forall i, j :: 0 <= i < j < |ports| && ports[i].containerPort > 0 && ports[j].containerPort > 0 ==>
      RemotePort(ports[i]) != RemotePort(ports[j])
  }

  ghost predicate AllFit(open: set<string>, ports: seq<PortMapping>, replies: nat -> TunnelReply, n: nat)
    requires n <= |ports|
  {
    forall i :: 0 <= i < n ==> FitsAt(open, ports, replies, i)
  }

  /** A tunnel stays open while the later ones are opened. */
  lemma {:induction false} OpenStays(open: set<string>, ports: seq<PortMapping>, replies: nat -> TunnelReply,
                                     i: nat, n: nat)
    requires i < n <= |ports| && AllFit(open, ports, replies, n) && ports[i].containerPort > 0
    ensures replies(i).TunnelInfo? && LocalPort(ports[i], replies(i)) in OpenAfter(open, ports, replies, n)
    ensures LocalPort(ports[i], replies(i)) !in open
  {
    hide RemotePort, LocalPort;
    assert FitsAt(open, ports, replies, i);
    OpenGrows(open, ports, replies, i);
    if i == n - 1 {
    } else {
      OpenStays(open, ports, replies, i, n - 1);
    }
  }

  /** Every local port on record belongs to the last mapping with its remote port. */
  lemma {:induction false} RecordedLast(open: set<string>, ports: seq<PortMapping>, replies: nat -> TunnelReply, n: nat,
                                        p: string) returns (k: nat)
    requires n <= |ports| && AllFit(open, ports, replies, n) && p in Recorded(ports, replies, n)
    ensures k < n && ports[k].containerPort > 0 && RemotePort(ports[k]) == p && replies(k).TunnelInfo?
    ensures Recorded(ports, replies, n)[p] == LocalPort(ports[k], replies(k))
    ensures forall j :: k < j < n && ports[j].containerPort > 0 ==> RemotePort(ports[j]) != p
  {
    hide RemotePort, LocalPort;
    assert FitsAt(open, ports, replies, n - 1);
    if ports[n - 1].containerPort > 0 && RemotePort(ports[n - 1]) == p {
      k := n - 1;
    } else {
      k := RecordedLast(open, ports, replies, n - 1, p);
    }
  }

  lemma {:induction false} RecordedKnows(open: set<string>, ports: seq<PortMapping>, replies: nat -> TunnelReply,
                                         i: nat, n: nat)
    requires i < n <= |ports| && AllFit(open, ports, replies, n) && ports[i].containerPort > 0
    ensures RemotePort(ports[i]) in Recorded(ports, replies, n)
  {
    hide RemotePort, LocalPort;
    assert FitsAt(open, ports, replies, n - 1);
    if i == n - 1 {
    } else {
      RecordedKnows(open, ports, replies, i, n - 1);
    }
  }

  lemma {:induction false} OpenedBy(open: set<string>, ports: seq<PortMapping>, replies: nat -> TunnelReply, n: nat,
                                    x: string) returns (i: nat)
    requires n <= |ports| && AllFit(open, ports, replies, n) && x in OpenAfter(open, ports, replies, n) && x !in open
    ensures i < n && ports[i].containerPort > 0 && replies(i).TunnelInfo? && LocalPort(ports[i], replies(i)) == x
  {
    hide RemotePort, LocalPort;
    assert n > 0;
    if x in OpenAfter(open, ports, replies, n - 1) {
      i := OpenedBy(open, ports, replies, n - 1, x);
    } else {
      i := n - 1;
    }
  }

  /** Different mappings have different local ports. */
  lemma LocalPortsDiffer(open: set<string>, ports: seq<PortMapping>, replies: nat -> TunnelReply, i: nat, k: nat)
    requires i < k < |ports| && AllFit(open, ports, replies, |ports|)
    requires ports[i].containerPort > 0 && ports[k].containerPort > 0
    ensures replies(i).TunnelInfo? && replies(k).TunnelInfo?
    ensures LocalPort(ports[i], replies(i)) != LocalPort(ports[k], replies(k))
  {
    hide RemotePort, LocalPort;
    OpenStays(open, ports, replies, i, k);
    assert FitsAt(open, ports, replies, k);
  }

  /** What is recorded was gained. */
  lemma RecordedAreOpen(open: set<string>, ports: seq<PortMapping>, replies: nat -> TunnelReply)
    requires AllFit(open, ports, replies, |ports|)
    ensures LocalPorts(Recorded(ports, replies, |ports|)) <= OpenAfter(open, ports, replies, |ports|) - open
  {
    hide RemotePort, LocalPort;
    var record := Recorded(ports, replies, |ports|);
    forall p <- record ensures record[p] in OpenAfter(open, ports, replies, |ports|) - open {
      var k := RecordedLast(open, ports, replies, |ports|, p);
      OpenStays(open, ports, replies, k, |ports|);
    }
  }

  /** Every tunnel gained is on record if and only if the remote ports are pairwise different. */
  lemma RecordsAllIff(open: set<string>, ports: seq<PortMapping>, replies: nat -> TunnelReply)
    requires AllFit(open, ports, replies, |ports|)
    ensures LocalPorts(Recorded(ports, replies, |ports|)) == OpenAfter(open, ports, replies, |ports|) - open <==>
      RemotePortsDiffer(ports)
  {
    hide OpenAfter, Recorded, RemotePort, LocalPort;
    var n := |ports|;
    var record, gained := Recorded(ports, replies, n), OpenAfter(open, ports, replies, n) - open;
    RecordedAreOpen(open, ports, replies);
    if RemotePortsDiffer(ports) {
      forall x <- gained ensures x in LocalPorts(record) {
        var i := OpenedBy(open, ports, replies, n, x);
        RecordedKnows(open, ports, replies, i, n);
        var k := RecordedLast(open, ports, replies, n, RemotePort(ports[i]));
        assert k == i;
      }
    } else {
      var i, j :| 0 <= i < j < n && ports[i].containerPort > 0 && ports[j].containerPort > 0 &&
        RemotePort(ports[i]) == RemotePort(ports[j]);
      OpenStays(open, ports, replies, i, n);
      var x := LocalPort(ports[i], replies(i));
      forall p <- record ensures record[p] != x {
        var k := RecordedLast(open, ports, replies, n, p);
        if k < i { LocalPortsDiffer(open, ports, replies, k, i); }
        if i < k { LocalPortsDiffer(open, ports, replies, i, k); }
      }
      assert x in gained && x !in LocalPorts(record);
    }
  }

  lemma SameMounts(a: Mounts, b: Mounts)
    requires forall x :: Same(a, b, x)
    ensures a == b
  {
    assert forall x :: x in a <==> x in b by { forall x ensures x in a <==> x in b { assert Same(a, b, x); } }
    forall x <- a ensures a[x] == b[x] { assert Same(a, b, x); }
  }

  /** The entry of a name is the same in two registries. */
  predicate Same(a: Mounts, b: Mounts, x: string) { (x in a <==> x in b) && (x in a ==> a[x] == b[x]) }

  predicate Named(requests: seq<VolumeMount>, n: nat, x: string)
    requires n <= |requests|
  {
    exists j :: 0 <= j < n && requests[j].name == x
  }

  /** The first `n` requests have names that are new and all different. */
  ghost predicate New(before: Mounts, requests: seq<VolumeMount>, n: nat)
    requires n <= |requests|
  {
    && (forall j :: 0 <= j < n ==> requests[j].name !in before)
    && (forall j, k :: 0 <= j < k < n ==> requests[j].name != requests[k].name)
  }

  ghost predicate InPlace(mounts: Mounts, requests: seq<VolumeMount>, host: string, j: nat)
    requires j < |requests|
  {
    requests[j].name in mounts && mounts[requests[j].name].mount == At(requests[j], host)
  }
}
