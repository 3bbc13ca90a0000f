/** The shared adapter judgment: which mechanisms a consumer is offered for a backing, and which of
    them the default service admits. Region planning and buffer import both ask it. */
module BufferAccess {
  import opened Prelude

  datatype Deployment = HostCpu | DeviceAicore | DeviceAicpu

  datatype BackendKind = ForkShm | PosixShm | VmmWindow | RemoteSidecar | DeviceMalloc | ForkCow | VmmShareable

  datatype AdapterKind = DirectMap | DevicePeer | OwnerDelegatedCopy | ExplicitTransfer | Collective

  datatype AdapterProfile =
    | HostSvmMap | HostVmmCopy | DeviceVmmPeerImport | DeviceFabricV2PeerImport | RemoteCopy | HostShmMap
    | ForkInheritedVa | DeviceLocal | OwnerDeviceCopy

  datatype Candidate = Candidate(kind: AdapterKind, profile: AdapterProfile)

  datatype Query = Query(backend: BackendKind, consumer: Deployment, sameNode: bool, sameEndpoint: bool)

  datatype ReasonCode =
    | Supported | UnsupportedBackendKind | UnsupportedEndpointRelation | NoImplementedDirectMapProbe | NoCopyBackend
    | StaticUnsupported

  predicate IsDevice(d: Deployment) { d == DeviceAicore || d == DeviceAicpu }

  function ExplicitTransferOnly(): seq<Candidate> { [Candidate(ExplicitTransfer, RemoteCopy)] }

  function RemoteCopies(): seq<Candidate> {
    [Candidate(OwnerDelegatedCopy, RemoteCopy), Candidate(ExplicitTransfer, RemoteCopy)]
  }

  function HostCandidates(backend: BackendKind, sameNode: bool): seq<Candidate> {
    if !sameNode then RemoteCopies()
    else match backend
      case ForkShm => [Candidate(DirectMap, ForkInheritedVa)]
      case ForkCow => [Candidate(DirectMap, ForkInheritedVa)]
      case PosixShm => [Candidate(DirectMap, HostShmMap)]
      case DeviceMalloc => [Candidate(OwnerDelegatedCopy, OwnerDeviceCopy)]
      case VmmWindow => [Candidate(OwnerDelegatedCopy, HostVmmCopy)]
      case VmmShareable => [Candidate(OwnerDelegatedCopy, HostVmmCopy)]
      case RemoteSidecar => ExplicitTransferOnly()
  }

  function DeviceCandidates(backend: BackendKind, sameNode: bool, sameEndpoint: bool): seq<Candidate> {
    if sameEndpoint && (backend == DeviceMalloc || backend == VmmWindow) then [Candidate(DirectMap, DeviceLocal)]
    else if backend == VmmWindow || backend == VmmShareable then
      if sameNode then [Candidate(DevicePeer, DeviceVmmPeerImport)]
      else [Candidate(DevicePeer, DeviceFabricV2PeerImport)] + RemoteCopies()
    else ExplicitTransferOnly()
  }

  // Ordered candidates for one backing and consumer relation.
  function Candidates(q: Query): seq<Candidate> {
    if q.backend == RemoteSidecar then ExplicitTransferOnly()
    else if q.consumer == HostCpu then HostCandidates(q.backend, q.sameNode)
    else DeviceCandidates(q.backend, q.sameNode, q.sameEndpoint)
  }

  // The default service's verdict on one candidate.
  function Evaluate(q: Query, c: Candidate): ReasonCode {
    if q.backend == RemoteSidecar then UnsupportedBackendKind
    else if c.profile == HostSvmMap || c.profile == DeviceVmmPeerImport then NoImplementedDirectMapProbe
    else if c !in Candidates(q) then UnsupportedEndpointRelation
    else if c.profile == RemoteCopy || c.profile == DeviceFabricV2PeerImport then NoCopyBackend
    else if c.profile in {HostVmmCopy, HostShmMap, ForkInheritedVa, DeviceLocal, OwnerDeviceCopy} then Supported
    else StaticUnsupported
  }

  // The first candidate a service supports, with those it refused before it.
  function FirstSupported(q: Query, service: (Query, Candidate) -> bool, cs: seq<Candidate>): (r: Option<Candidate>)
    ensures r.Some? <==> exists i | 0 <= i < |cs| :: service(q, cs[i])
    ensures r.Some? ==>
              exists i | 0 <= i < |cs| ::
                r.value == cs[i] && service(q, cs[i]) && forall j | 0 <= j < i :: !service(q, cs[j])
  {
    if cs == [] then None
    else if service(q, cs[0]) then Some(cs[0])
    else
      var r := FirstSupported(q, service, cs[1..]);
      assert forall i | 0 < i < |cs| :: cs[i] == cs[1..][i - 1];
      assert r.Some? ==>
               var i :| 0 <= i < |cs[1..]| && r.value == cs[1..][i] && service(q, cs[1..][i])
                        && forall j | 0 <= j < i :: !service(q, cs[1..][j]);
               r.value == cs[i + 1] && forall j | 0 <= j < i + 1 :: !service(q, cs[j]);
      r
  }

  predicate DefaultService(q: Query, c: Candidate) { Evaluate(q, c) == Supported }

  // The one mechanism the default service grants for this relation, if any.
  function Choose(q: Query): Option<Candidate> { FirstSupported(q, DefaultService, Candidates(q)) }

  // The whole verdict of the default service at a glance: a host consumer reaches every same-node
  // backing but a remote one; a device consumer reaches only memory local to its own endpoint; and
  // nothing crosses nodes.
  lemma ReachableIff(q: Query)
    ensures Choose(q).Some? <==>
              q.backend != RemoteSidecar
              && if q.consumer == HostCpu then q.sameNode
                 else q.sameEndpoint && (q.backend == DeviceMalloc || q.backend == VmmWindow)
    ensures Choose(q).Some? ==> |Candidates(q)| == 1 && Choose(q).value == Candidates(q)[0]
  {
    var cs := Candidates(q);
    assert |cs| == 1 || (|cs| == 2 && cs == RemoteCopies()) || (|cs| == 3 && cs[1..] == RemoteCopies());
    assert forall i | 0 <= i < |cs| :: cs[i] in cs;
  }
}
