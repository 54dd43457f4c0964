/**
 * The sample reconciler of the sub-interface example
 * (drivers/subinterface/controlller/main.go). It owns the device class
 * `gpu.example.com`; for each claim it builds one ResourceSlice holding one virtual
 * GPU, under a name derived from the claim's UID alone, and on deletion removes the
 * slice of that name, counting "not found" as done.
 */
module SampleReconciler {
  import opened Wrappers
  import opened ResourceApi
  import Controller

  const ControllerName: string := "sample-controller"
  const DriverName: string := "gpu.example.com"

  /** The textual form of the memory quantity `resource.MustParse("4Gi")`. */
  const VirtualGpuMemory: string := "4Gi"

  /** IsDeviceClassRelevant: the class is this controller's exactly when it is named
      after the driver. */
  function IsDeviceClassRelevant(deviceClass: DeviceClass): (r: bool)
    ensures r <==> deviceClass.name == "gpu.example.com"
  {
    deviceClass.name == DriverName
  }

  /** Every slice name starts with the controller's name and a dash. */
  const SliceNamePrefix: string := ControllerName + "-"

  /** `fmt.Sprintf("%s-%s", controllerName, claim.UID)`: the prefix, then the UID. */
  function ResourceSliceName(claim: ResourceClaim): (r: string)
    ensures |r| == |SliceNamePrefix| + |claim.uid|
    ensures r[..|SliceNamePrefix|] == "sample-controller-" && r[|SliceNamePrefix|..] == claim.uid
  {
    SliceNamePrefix + claim.uid
  }

  /** The claim UID a slice name was made from, if it is one of this controller's names. */
  function ClaimUidOfSliceName(name: string): Option<string>
  {
    if |SliceNamePrefix| <= |name| && name[..|SliceNamePrefix|] == SliceNamePrefix
    then Some(name[|SliceNamePrefix|..])
    else None
  }

  /** Slice names can be read back to the claim UID. */
  lemma SliceNameRoundTrip(claim: ResourceClaim)
    ensures ClaimUidOfSliceName(ResourceSliceName(claim)) == Some(claim.uid)
  {
  }

  /** Two claims get the same slice name exactly when they have the same UID. */
  lemma SliceNameInjective(a: ResourceClaim, b: ResourceClaim)
    ensures ResourceSliceName(a) == ResourceSliceName(b) <==> a.uid == b.uid
  {
    if ResourceSliceName(a) == ResourceSliceName(b) {
      SliceNameRoundTrip(a);
      SliceNameRoundTrip(b);
    }
  }

  /** The one device of a claim's slice. */
  function VirtualDevice(claim: ResourceClaim): Device
  {
    Device("virtual-gpu-" + claim.uid, map["type" := "virtual-gpu"], map["memory" := VirtualGpuMemory])
  }

  /** Reconcile: never fails; the slice is named after the claim, lives on node `node0`
      under driver `gpu.example.com` in the single-slice, first-generation pool
      `virtual-gpus`, and holds exactly one virtual GPU named after the claim. */
  function Reconcile(claim: ResourceClaim): (r: Result<ResourceSlice, string>)
    ensures r.Success?
    ensures r.value.name == ResourceSliceName(claim) && r.value.ownerReferences == []
    ensures r.value.spec.nodeName == Some("node0") && r.value.spec.driver == "gpu.example.com"
    ensures r.value.spec.pool.name == "virtual-gpus"
    ensures r.value.spec.pool.generation == 1 && r.value.spec.pool.resourceSliceCount == 1
    ensures |r.value.spec.devices| == 1
    ensures r.value.spec.devices[0].name == "virtual-gpu-" + claim.uid
    ensures r.value.spec.devices[0].attributes == map["type" := "virtual-gpu"]
    ensures r.value.spec.devices[0].capacity == map["memory" := "4Gi"]
  {
    var sliceName := ResourceSliceName(claim);
    Success(ResourceSlice(
      sliceName,
      [],
      ResourceSliceSpec(Some("node0"), DriverName, ResourcePool("virtual-gpus", 1, 1), [VirtualDevice(claim)])))
  }

  /** The reconciled slice depends on the claim's UID only; claims with different UIDs
      get slices with different names and different device names. */
  lemma ReconcileDependsOnlyOnUid(a: ResourceClaim, b: ResourceClaim)
    ensures a.uid == b.uid ==> Reconcile(a) == Reconcile(b)
    ensures a.uid != b.uid ==> Reconcile(a).value.name != Reconcile(b).value.name
    ensures a.uid != b.uid ==> Reconcile(a).value.spec.devices[0].name != Reconcile(b).value.spec.devices[0].name
  {
    SliceNameInjective(a, b);
    if a.uid != b.uid {
      var p := "virtual-gpu-";
      assert (p + a.uid)[|p|..] == a.uid && (p + b.uid)[|p|..] == b.uid;
    }
  }

  datatype ReconcilerError = DeleteFailed(sliceName: string, cause: ApiError)

  /** What Delete did: the slice name it asked the API server to delete and its result. */
  datatype DeleteRun = DeleteRun(target: string, err: Option<ReconcilerError>)

  /** Delete: asks to delete the claim's slice; success and "not found" are both success,
      every other failure is returned. `apiDelete` is the API server's answer per name. */
  function Delete(claim: ResourceClaim, apiDelete: string -> Option<ApiError>): (r: DeleteRun)
    ensures r.target == ResourceSliceName(claim)
    ensures r.err.None? <==> apiDelete(r.target).None? || apiDelete(r.target) == Some(NotFound)
    ensures r.err.Some? ==> r.err.value == DeleteFailed(r.target, apiDelete(r.target).value)
  {
    var sliceName := ResourceSliceName(claim);
    var answer := apiDelete(sliceName);
    if answer.Some? && answer.value != NotFound then DeleteRun(sliceName, Some(DeleteFailed(sliceName, answer.value)))
    else DeleteRun(sliceName, None)
  }

  /** Delete removes the very slice that Reconcile produced for the same claim. */
  lemma DeleteTargetsReconciledSlice(claim: ResourceClaim, apiDelete: string -> Option<ApiError>)
    ensures Delete(claim, apiDelete).target == Reconcile(claim).value.name
  {
  }

  /** The API server's delete over the set of slice names it stores. */
  function ApiServerDelete(stored: set<string>, name: string): (set<string>, Option<ApiError>)
  {
    if name in stored then (stored - {name}, None) else (stored, Some(NotFound))
  }

  /** Against a store that deletes or answers "not found", Delete always succeeds; once the
      slice is gone, deleting again succeeds and changes nothing. */
  lemma RepeatedDeleteSucceeds(stored: set<string>, claim: ResourceClaim)
    ensures Delete(claim, n => ApiServerDelete(stored, n).1).err.None?
    ensures var after := ApiServerDelete(stored, ResourceSliceName(claim)).0;
            ResourceSliceName(claim) !in after &&
            Delete(claim, n => ApiServerDelete(after, n).1).err.None? &&
            ApiServerDelete(after, ResourceSliceName(claim)).0 == after
  {
  }

  /** The text of a delete error as the controller receives it: the slice name, then the
      wrapped API error's text. */
  function ErrorMessage(e: ReconcilerError): string
  {
    "failed to delete ResourceSlice " + e.sliceName + ": " + ApiErrorText(e.cause)
  }

  /** This reconciler behind the controller's Reconciler interface: the slice pointer it
      returns is never nil, and Delete's error reaches the controller as its text. */
  function AsReconciler(apiDelete: string -> Option<ApiError>): (r: Controller.Reconciler)
    ensures forall d :: r.isDeviceClassRelevant(d) <==> d.name == DriverName
    ensures forall claim :: r.reconcile(claim).Success? && r.reconcile(claim).value == Some(Reconcile(claim).value)
    ensures forall claim :: r.delete(claim).None? <==> Delete(claim, apiDelete).err.None?
  {
    Controller.Reconciler(
      IsDeviceClassRelevant,
      claim => Success(Some(Reconcile(claim).value)),
      claim => var run := Delete(claim, apiDelete); if run.err.None? then None else Some(ErrorMessage(run.err.value)))
  }

  /** The controller wired as the example's main function wires it: named
      `sample-controller`, with the given client and this reconciler. */
  function SampleController(client: Controller.Client, apiDelete: string -> Option<ApiError>): (r: Controller.Controller)
    ensures r.controllerName == "sample-controller" && r.kubeClient == client
    ensures forall claim :: r.reconciler.delete(claim).None? <==> Delete(claim, apiDelete).err.None?
  {
    Controller.Controller(ControllerName, client, AsReconciler(apiDelete))
  }

  /** End to end: an allocated claim of class `gpu.example.com` leads to exactly one
      Create of the slice named after the claim, owned by the claim. */
  lemma SampleControllerCreatesOwnedSlice(client: Controller.Client, apiDelete: string -> Option<ApiError>,
                                          claim: ResourceClaim)
    requires claim.allocation.Some?
    requires client.getDeviceClass(claim.deviceClassName) == Success(DeviceClass(DriverName))
    ensures var acts := Controller.AddOrUpdate(SampleController(client, apiDelete), Controller.ClaimObject(claim)).actions;
            |acts| == 3 && acts[2].CreateResourceSlice? &&
            acts[2].slice.name == ResourceSliceName(claim) &&
            acts[2].slice.ownerReferences == [ControllerRef(claim)]
  {
  }

  /** A claim whose class is some other driver's is left alone. */
  lemma SampleControllerIgnoresForeignClass(client: Controller.Client, apiDelete: string -> Option<ApiError>,
                                            claim: ResourceClaim, other: DeviceClass)
    requires other.name != DriverName
    requires client.getDeviceClass(claim.deviceClassName) == Success(other)
    ensures Controller.AddOrUpdate(SampleController(client, apiDelete), Controller.ClaimObject(claim)).actions
         == (if claim.allocation.Some? then [Controller.GetDeviceClass(claim.deviceClassName)] else [])
  {
  }

  /** End to end: deleting a claim, directly or through a tombstone, makes one reconciler
      Delete, aimed at the slice the controller created for it. */
  lemma SampleControllerDeletesCreatedSlice(client: Controller.Client, apiDelete: string -> Option<ApiError>,
                                            claim: ResourceClaim, key: string)
    ensures var c := SampleController(client, apiDelete);
            Controller.OnDelete(c, Controller.ClaimObject(claim)).actions == [Controller.Delete(claim)] &&
            Controller.OnDelete(c, Controller.Tombstone(key, Controller.ClaimObject(claim))).actions == [Controller.Delete(claim)]
    ensures Delete(claim, apiDelete).target == Controller.OwnedByClaim(Reconcile(claim).value, claim).name
  {
  }
}
