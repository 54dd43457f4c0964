/**
 * The Kubernetes API values the drivers and the controller read and build:
 * devices, resource claims with their allocation results, device classes,
 * resource slices and owner references. Only the fields the core touches are kept.
 */
module ResourceApi {
  import opened Wrappers

  /** A device as advertised in a ResourceSlice. Attribute values are the string
      values the core sets; capacity quantities are kept as their textual form. */
  datatype Device = Device(
    name: string,
    attributes: map<string, string>,
    capacity: map<string, string>)

  /** One entry of `claim.Status.Allocation.Devices.Results`. */
  datatype DeviceRequestAllocationResult = DeviceRequestAllocationResult(
    request: string,
    driver: string,
    pool: string,
    device: string)

  /** `claim.Status.Allocation`; `None` in the claim stands for a nil pointer. */
  datatype AllocationResult = AllocationResult(results: seq<DeviceRequestAllocationResult>)

  datatype ResourceClaim = ResourceClaim(
    namespace: string,
    name: string,
    uid: string,
    deviceClassName: string,
    allocation: Option<AllocationResult>)

  datatype DeviceClass = DeviceClass(name: string)

  /** An owner reference as built by `metav1.NewControllerRef`. */
  datatype OwnerReference = OwnerReference(
    apiVersion: string,
    kind: string,
    name: string,
    uid: string,
    controller: bool,
    blockOwnerDeletion: bool)

  datatype ResourcePool = ResourcePool(name: string, generation: int, resourceSliceCount: int)

  datatype ResourceSliceSpec = ResourceSliceSpec(
    nodeName: Option<string>,
    driver: string,
    pool: ResourcePool,
    devices: seq<Device>)

  datatype ResourceSlice = ResourceSlice(
    name: string,
    ownerReferences: seq<OwnerReference>,
    spec: ResourceSliceSpec)

  /** The API server's answer to a request, as far as the core tells them apart. */
  datatype ApiError = NotFound | AlreadyExists | OtherApiError(message: string)

  /** The text an API error prints as; only NotFound and AlreadyExists are told apart. */
  function ApiErrorText(e: ApiError): string
  {
    match e
    case NotFound => "not found"
    case AlreadyExists => "already exists"
    case OtherApiError(message) => message
  }

  /** The group/version/kind a claim's controller reference names. */
  const ClaimApiVersion: string := "resource.k8s.io/v1"
  const ClaimKind: string := "ResourceClaim"

  /** `metav1.NewControllerRef(claim, resourcev1.SchemeGroupVersion.WithKind("ResourceClaim"))`:
      a reference that marks the claim as the managing controller of the owned object. */
  function ControllerRef(claim: ResourceClaim): (r: OwnerReference)
    ensures r.kind == "ResourceClaim" && r.apiVersion == "resource.k8s.io/v1"
    ensures r.name == claim.name && r.uid == claim.uid
    ensures r.controller && r.blockOwnerDeletion
  {
    OwnerReference(ClaimApiVersion, ClaimKind, claim.name, claim.uid, true, true)
  }
}
