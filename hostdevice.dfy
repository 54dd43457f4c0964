/**
 * The host-device driver (drivers/hostdevice/main.go): it advertises the host's
 * physical, up, non-loopback links as devices, prepares a claim by picking the
 * first allocated device name, and on pod sandbox start and stop moves that
 * link into and out of the pod's network namespace.
 *
 * Link enumeration and the namespace moves are netlink calls; they enter the
 * model as the outcomes they return.
 */
module HostDevice {
  import opened Wrappers
  import opened ResourceApi
  import opened Driver

  /** Bits of Go's `net.Flags`, the type of a netlink link's `Flags`. */
  const FlagUp: bv64 := 1
  const FlagLoopback: bv64 := 4

  /** A link as `netlink.LinkList` reports it: its name, flag bits and the
      already formatted hardware address. */
  datatype Link = Link(name: string, flags: bv64, hardwareAddr: string)

  datatype HostDeviceError =
    | ListLinksFailed(cause: string)
    | NoAllocatedDevices(claimName: string)
    | InvalidPreparedData(typeName: string)
    | NetdevFailed(cause: string)

  /** Go's `strings.HasPrefix`: a byte-wise, case-sensitive comparison. */
  predicate HasPrefix(s: string, prefix: string)
  {
    |prefix| <= |s| && s[..|prefix|] == prefix
  }

  predicate IsLoopback(l: Link)
  {
    l.flags & FlagLoopback != 0
  }

  predicate IsUp(l: Link)
  {
    l.flags & FlagUp != 0
  }

  /** Names of virtual or overlay links that are never advertised. */
  predicate HasVirtualPrefix(name: string)
  {
    HasPrefix(name, "veth") || HasPrefix(name, "docker") || HasPrefix(name, "cni")
  }

  /** A link survives all three checks of the discovery loop. */
  predicate Eligible(l: Link)
  {
    !IsLoopback(l) && IsUp(l) && !HasVirtualPrefix(l.name)
  }

  /** The device advertised for an eligible link. */
  function ToDevice(l: Link): Device
  {
    Device(l.name, map["interface-name" := l.name, "mac-address" := l.hardwareAddr], map[])
  }

  /** The devices the discovery loop builds from a link list, one per eligible link
      in list order. Defined from the end of the list so that it follows the loop. */
  function Advertised(links: seq<Link>): seq<Device>
  {
    if links == [] then []
    else
      var last := links[|links| - 1];
      Advertised(links[..|links| - 1]) + (if Eligible(last) then [ToDevice(last)] else [])
  }

  /** The positions of the eligible links, in increasing order. */
  function EligibleIndices(links: seq<Link>): seq<nat>
  {
    if links == [] then []
    else
      EligibleIndices(links[..|links| - 1]) + (if Eligible(links[|links| - 1]) then [|links| - 1] else [])
  }

  /** GetDevices: a failed link listing is reported and yields no devices; otherwise the
      eligible links become devices, in order. */
  method GetDevices(listing: Result<seq<Link>, string>) returns (r: Result<seq<Device>, HostDeviceError>)
    ensures listing.Failure? ==> r == Failure(ListLinksFailed(listing.error))
    ensures listing.Success? ==> r == Success(Advertised(listing.value))
  {
    if listing.Failure? {
      return Failure(ListLinksFailed(listing.error));
    }
    var links := listing.value;
    var devices: seq<Device> := [];
    for i := 0 to |links|
      invariant devices == Advertised(links[..i])
    {
      var link := links[i];
      assert links[..i + 1][..i] == links[..i];
      if IsLoopback(link) || !IsUp(link) {
        continue;
      }
      if HasVirtualPrefix(link.name) {
        continue;
      }
      devices := devices + [ToDevice(link)];
    }
    assert links[..|links|] == links;
    return Success(devices);
  }

  /** The eligible positions are strictly increasing, in range, and are exactly the
      positions whose link is eligible. */
  lemma {:induction false} EligibleIndicesExact(links: seq<Link>)
    ensures forall k, m :: 0 <= k < m < |EligibleIndices(links)| ==> EligibleIndices(links)[k] < EligibleIndices(links)[m]
    ensures forall k :: 0 <= k < |EligibleIndices(links)| ==> EligibleIndices(links)[k] < |links|
    ensures forall j :: 0 <= j < |links| ==> (Eligible(links[j]) <==> j in EligibleIndices(links))
  {
    if links != [] {
      var init := links[..|links| - 1];
      EligibleIndicesExact(init);
      assert forall j :: 0 <= j < |init| ==> links[j] == init[j];
    }
  }

  /** The k-th advertised device is the device of the k-th eligible link: every eligible
      link yields exactly one device, and devices keep the order of their links. */
  lemma {:induction false} AdvertisedFollowsEligibleLinks(links: seq<Link>)
    ensures |Advertised(links)| == |EligibleIndices(links)|
    ensures forall k :: 0 <= k < |Advertised(links)| ==>
      EligibleIndices(links)[k] < |links| && Advertised(links)[k] == ToDevice(links[EligibleIndices(links)[k]])
  {
    if links != [] {
      var init := links[..|links| - 1];
      AdvertisedFollowsEligibleLinks(init);
      EligibleIndicesExact(init);
      assert forall j :: 0 <= j < |init| ==> links[j] == init[j];
    }
  }

  /** No more devices than links. */
  lemma {:induction false} AdvertisedNoLongerThanLinks(links: seq<Link>)
    ensures |Advertised(links)| <= |links|
  {
    if links != [] {
      AdvertisedNoLongerThanLinks(links[..|links| - 1]);
    }
  }

  /** Every advertised device comes from a link in the list that is up, not loopback and
      not virtually named; its name and its interface-name attribute are that link's name. */
  lemma AdvertisedOnlyEligible(links: seq<Link>)
    ensures forall d :: d in Advertised(links) ==>
      exists l :: l in links && !IsLoopback(l) && IsUp(l) && !HasVirtualPrefix(l.name) && d == ToDevice(l)
    ensures forall d :: d in Advertised(links) ==>
      !HasVirtualPrefix(d.name) && "interface-name" in d.attributes && d.attributes["interface-name"] == d.name
  {
    AdvertisedFollowsEligibleLinks(links);
    EligibleIndicesExact(links);
    forall d | d in Advertised(links)
      ensures exists l :: l in links && Eligible(l) && d == ToDevice(l)
    {
      var k :| 0 <= k < |Advertised(links)| && Advertised(links)[k] == d;
      var j := EligibleIndices(links)[k];
      assert links[j] in links && Eligible(links[j]);
    }
  }

  /** Every eligible link in the list is advertised. */
  lemma AdvertisedAllEligible(links: seq<Link>)
    ensures forall j :: 0 <= j < |links| && Eligible(links[j]) ==> ToDevice(links[j]) in Advertised(links)
  {
    AdvertisedFollowsEligibleLinks(links);
    EligibleIndicesExact(links);
    forall j | 0 <= j < |links| && Eligible(links[j])
      ensures ToDevice(links[j]) in Advertised(links)
    {
      var k :| 0 <= k < |EligibleIndices(links)| && EligibleIndices(links)[k] == j;
      assert Advertised(links)[k] == ToDevice(links[j]);
    }
  }

  /** A host with only a loopback `lo` and a down `eth0` advertises nothing. */
  lemma LoopbackAndDownHostAdvertisesNothing()
    ensures Advertised([Link("lo", FlagUp | FlagLoopback, "00:00:00:00:00:00"),
                        Link("eth0", 0, "52:54:00:12:34:56")]) == []
  {
    var links := [Link("lo", FlagUp | FlagLoopback, "00:00:00:00:00:00"), Link("eth0", 0, "52:54:00:12:34:56")];
    assert IsLoopback(links[0]) && !IsUp(links[1]);
    assert links[..1] == [links[0]] && links[..1][..0] == [];
    assert Advertised(links[..1]) == Advertised([]) == [];
    assert Advertised(links) == Advertised(links[..1]);
  }

  /** The prefix test is case-sensitive: an up `Veth0` is advertised, an up `veth0` is not. */
  lemma PrefixTestIsCaseSensitive()
    ensures Advertised([Link("Veth0", FlagUp, "aa:bb:cc:dd:ee:ff"), Link("veth0", FlagUp, "aa:bb:cc:dd:ee:00")])
         == [ToDevice(Link("Veth0", FlagUp, "aa:bb:cc:dd:ee:ff"))]
  {
    var links := [Link("Veth0", FlagUp, "aa:bb:cc:dd:ee:ff"), Link("veth0", FlagUp, "aa:bb:cc:dd:ee:00")];
    assert "Veth0"[0] != "veth"[0];
    assert "veth0"[..4] == "veth";
    assert Eligible(links[0]) && !Eligible(links[1]);
    assert links[..1] == [links[0]] && links[..1][..0] == [];
    assert Advertised(links[..1]) == Advertised([]) + [ToDevice(links[0])];
    assert Advertised(links) == Advertised(links[..1]);
  }

  /** PrepareDevice: the prepared data is the device name of the first allocation result;
      a claim without allocation, or with no results, is an error. */
  function PrepareDevice(claim: ResourceClaim): (r: Result<Value, HostDeviceError>)
    ensures r.Failure? <==> claim.allocation.None? || |claim.allocation.value.results| == 0
    ensures r.Failure? ==> r.error == NoAllocatedDevices(claim.name)
    ensures r.Success? ==> r.value == StringValue(claim.allocation.value.results[0].device)
  {
    if claim.allocation.None? || |claim.allocation.value.results| == 0 then
      Failure(NoAllocatedDevices(claim.name))
    else
      Success(StringValue(claim.allocation.value.results[0].device))
  }

  /** Results after the first do not influence what is prepared. */
  lemma PrepareIgnoresLaterResults(claim: ResourceClaim, first: DeviceRequestAllocationResult,
                                   rest: seq<DeviceRequestAllocationResult>, other: seq<DeviceRequestAllocationResult>)
    requires claim.allocation == Some(AllocationResult([first] + rest))
    ensures PrepareDevice(claim) == PrepareDevice(claim.(allocation := Some(AllocationResult([first] + other))))
    ensures PrepareDevice(claim) == Success(StringValue(first.device))
  {
  }

  /** A call into the namespace-move library (`NsAttachNetdev`, `NsDetachNetdev`). */
  datatype NetdevCall =
    | Attach(hostName: string, netns: string, podName: string)
    | Detach(netns: string, podName: string, hostName: string)

  /** What a pod hook did: the library calls it made, in order, and the error it returned. */
  datatype HookRun = HookRun(calls: seq<NetdevCall>, err: Option<HostDeviceError>)

  function MoveError(outcome: Option<string>): Option<HostDeviceError>
  {
    if outcome.None? then None else Some(NetdevFailed(outcome.value))
  }

  /** ConfigureDeviceForPod: prepared data that is not a string is refused before any move;
      otherwise the host link is attached to the pod namespace under its own name, and the
      attach outcome is the hook's result. `attachOutcome` is what the attach reports. */
  function ConfigureDeviceForPod(device: AllocatedDevice, netns: string, pod: PodSandbox,
                                 prepared: Value, attachOutcome: Option<string>): (r: HookRun)
    ensures !prepared.StringValue? ==> r.calls == [] && r.err == Some(InvalidPreparedData(TypeName(prepared)))
    ensures prepared.StringValue? ==>
      |r.calls| == 1 && r.calls[0].Attach? && r.calls[0].netns == netns &&
      r.calls[0].hostName == prepared.s && r.calls[0].podName == prepared.s
    ensures prepared.StringValue? ==> (r.err.None? <==> attachOutcome.None?)
  {
    match prepared
    case StringValue(hostDeviceName) =>
      var podInterfaceName := hostDeviceName;
      HookRun([Attach(hostDeviceName, netns, podInterfaceName)], MoveError(attachOutcome))
    case _ => HookRun([], Some(InvalidPreparedData(TypeName(prepared))))
  }

  /** CleanupDeviceForPod: the same type check, then the link is detached from the pod
      namespace back to the host under the same name. */
  function CleanupDeviceForPod(device: AllocatedDevice, netns: string, pod: PodSandbox,
                               prepared: Value, detachOutcome: Option<string>): (r: HookRun)
    ensures !prepared.StringValue? ==> r.calls == [] && r.err == Some(InvalidPreparedData(TypeName(prepared)))
    ensures prepared.StringValue? ==>
      |r.calls| == 1 && r.calls[0].Detach? && r.calls[0].netns == netns &&
      r.calls[0].hostName == prepared.s && r.calls[0].podName == prepared.s
    ensures prepared.StringValue? ==> (r.err.None? <==> detachOutcome.None?)
  {
    match prepared
    case StringValue(hostDeviceName) =>
      var podInterfaceName := hostDeviceName;
      HookRun([Detach(netns, podInterfaceName, hostDeviceName)], MoveError(detachOutcome))
    case _ => HookRun([], Some(InvalidPreparedData(TypeName(prepared))))
  }

  /** Cleanup undoes what Configure did: both hooks accept the same prepared data, and the
      detach names the namespace, pod-side name and host name of the attach. */
  lemma CleanupMirrorsConfigure(device: AllocatedDevice, netns: string, pod: PodSandbox, prepared: Value,
                                attachOutcome: Option<string>, detachOutcome: Option<string>)
    ensures ConfigureDeviceForPod(device, netns, pod, prepared, attachOutcome).calls == [] <==>
            CleanupDeviceForPod(device, netns, pod, prepared, detachOutcome).calls == []
    ensures var c := ConfigureDeviceForPod(device, netns, pod, prepared, attachOutcome).calls;
            var u := CleanupDeviceForPod(device, netns, pod, prepared, detachOutcome).calls;
            c != [] ==> u == [Detach(c[0].netns, c[0].podName, c[0].hostName)]
  {
  }

  /** Data produced by PrepareDevice is always accepted by the pod hooks, which move the
      device named by the claim's first allocation result. */
  lemma PreparedDataMovesFirstAllocatedDevice(claim: ResourceClaim, device: AllocatedDevice, netns: string,
                                              pod: PodSandbox, attachOutcome: Option<string>)
    requires PrepareDevice(claim).Success?
    ensures var name := claim.allocation.value.results[0].device;
            ConfigureDeviceForPod(device, netns, pod, PrepareDevice(claim).value, attachOutcome).calls
              == [Attach(name, netns, name)]
  {
  }
}
