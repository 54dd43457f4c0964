# Network device drivers for Kubernetes dynamic resource allocation — a Dafny model

This project models the decision logic of the kubernetes-network-drivers repository:

- **Host-device driver** (`HostDevice`): which host links are advertised as devices
  (up, not loopback, not named `veth*`, `docker*` or `cni*`), how a claim is prepared
  (the first allocated device name) and how the pod hooks check the prepared data before
  moving the link into or out of the pod's network namespace.
- **Node agent** (`NodeAgent`): a single simulated node resource kept in one file. The
  class `NodeAgentDriver` holds the file's contents as a mutable field; preparing writes
  the claim UID, unpreparing writes the empty string, and the resource is advertised while
  the file exists.
- **Sample reconciler** (`SampleReconciler`): the ResourceSlice built for a claim (fixed
  node, driver, pool and one virtual GPU), its UID-derived name, the device-class
  relevance test and a delete that counts "not found" as done.
- **Claim controller** (`Controller`): the guard chain of the add/update handler (claim?
  allocated? class found? class relevant? reconciled?) that ends in one Create of the
  claim-owned slice, and the delete handler with its tombstone unwrapping. A handler run
  is described by the calls it makes and how it ended.

Kubernetes API values are in `ResourceApi`, the framework's driver types in `Driver`,
Option/Result in `Wrappers`. Everything outside the process — netlink, the file system,
the API server, the reconciler behind the controller — is a parameter giving the outcome
that call would have.

The node agent's PrepareDevice overwrites the file whoever held it and keeps no per-UID
record; the host-device UnprepareDevice does nothing; no code path checks the
macvlan/ipvlan single-kind rule.

## Model

| member | source | states |
|---|---|---|
| `HostDevice.GetDevices` | drivers/hostdevice/main.go:46-75 | a failed link listing returns the wrapped error and no devices; otherwise the result is the advertised-device sequence of the listed links |
| `HostDevice.EligibleIndicesExact` | drivers/hostdevice/main.go:53-62 | the kept positions are strictly increasing, in range, and a position is kept exactly when its link is up, not loopback and not virtually named |
| `HostDevice.AdvertisedFollowsEligibleLinks` | drivers/hostdevice/main.go:52-71 | the k-th advertised device is the device of the k-th eligible link: one device per eligible link, in input order |
| `HostDevice.AdvertisedNoLongerThanLinks` | drivers/hostdevice/main.go:52-71 | there are never more devices than links |
| `HostDevice.AdvertisedOnlyEligible` | drivers/hostdevice/main.go:56-67 | every advertised device comes from a listed link that is up and not loopback, its name has no `veth`/`docker`/`cni` prefix, and its `interface-name` attribute equals its name |
| `HostDevice.AdvertisedAllEligible` | drivers/hostdevice/main.go:53-71 | every eligible listed link is advertised |
| `HostDevice.LoopbackAndDownHostAdvertisesNothing` | drivers/hostdevice/main.go:57-59 | a host with a loopback `lo` and a down `eth0` advertises nothing |
| `HostDevice.PrefixTestIsCaseSensitive` | drivers/hostdevice/main.go:60 | an up `Veth0` is advertised while an up `veth0` is not |
| `HostDevice.PrepareDevice` | drivers/hostdevice/main.go:78-89 | fails with "no allocated devices" exactly when the allocation is nil or has no results; otherwise the prepared data is the first result's device name |
| `HostDevice.PrepareIgnoresLaterResults` | drivers/hostdevice/main.go:85 | results after the first do not change what is prepared |
| `HostDevice.ConfigureDeviceForPod` | drivers/hostdevice/main.go:98-113 | non-string prepared data is an error before any move; a string is attached to the pod namespace under the same name, and the hook fails exactly when the attach does |
| `HostDevice.CleanupDeviceForPod` | drivers/hostdevice/main.go:116-129 | the same type check, then one detach from the pod namespace back under the same name; fails exactly when the detach does |
| `HostDevice.CleanupMirrorsConfigure` | drivers/hostdevice/main.go:98-129 | both hooks accept the same prepared data, and the detach names the namespace, pod-side name and host name of the attach |
| `HostDevice.PreparedDataMovesFirstAllocatedDevice` | drivers/hostdevice/main.go:78-113 | data from a successful PrepareDevice makes Configure attach the claim's first allocated device under its own name |
| `NodeAgent.NodeAgentDriver.GetDevices` | drivers/subinterface/node/main.go:47-61 | no error; no devices exactly when the file does not exist and stat reports only that, otherwise exactly `special-resource-0` with `feature` = `enabled` |
| `NodeAgent.NodeAgentDriver.PrepareDevice` | drivers/subinterface/node/main.go:64-75 | a successful write leaves the claim UID in the file and returns it as prepared data, whatever the file held; a failed write returns an error and nil data |
| `NodeAgent.NodeAgentDriver.UnprepareDevice` | drivers/subinterface/node/main.go:78-82 | a successful write leaves an existing, empty file; a failed one returns the write error |
| `NodeAgent.NodeAgentDriver.ConfigureDeviceForPod` | drivers/subinterface/node/main.go:86-89 | succeeds and changes nothing |
| `NodeAgent.NodeAgentDriver.CleanupDeviceForPod` | drivers/subinterface/node/main.go:92-95 | succeeds and changes nothing |
| `NodeAgent.StatNotExistOnlyWhenAbsent` | drivers/subinterface/node/main.go:48 | stat reports non-existence exactly when the file is absent and no other fault occurs |
| `NodeAgent.WriteOverwritesHolder` | drivers/subinterface/node/main.go:69 | the last successful prepare decides the file contents |
| `NodeAgent.UnprepareIdempotent` | drivers/subinterface/node/main.go:81 | unpreparing twice leaves the same file as unpreparing once |
| `NodeAgent.UnpreparedFileStillPresent` | drivers/subinterface/node/main.go:48-81 | after a successful unprepare the file exists, so stat succeeds and the resource stays advertised |
| `SampleReconciler.IsDeviceClassRelevant` | drivers/subinterface/controlller/main.go:38-40 | true exactly when the class is named `gpu.example.com` |
| `SampleReconciler.ResourceSliceName` | drivers/subinterface/controlller/main.go:86-88 | the slice name is `sample-controller-` followed by the claim UID |
| `SampleReconciler.SliceNameRoundTrip` | drivers/subinterface/controlller/main.go:86-88 | the slice name is `sample-controller-` followed by the UID, which can be read back from it |
| `SampleReconciler.SliceNameInjective` | drivers/subinterface/controlller/main.go:86-88 | two claims get the same slice name exactly when their UIDs are equal |
| `SampleReconciler.Reconcile` | drivers/subinterface/controlller/main.go:43-71 | never fails; named after the claim, no owners, node `node0`, driver `gpu.example.com`, pool `virtual-gpus` of generation 1 and one slice, one device `virtual-gpu-<uid>` of type `virtual-gpu` with memory `4Gi` |
| `SampleReconciler.ReconcileDependsOnlyOnUid` | drivers/subinterface/controlller/main.go:43-71 | equal UIDs give equal slices; distinct UIDs give distinct slice names and distinct device names |
| `SampleReconciler.Delete` | drivers/subinterface/controlller/main.go:74-83 | deletes the claim's slice name; success and NotFound are success, any other failure is returned with the slice name |
| `SampleReconciler.DeleteTargetsReconciledSlice` | drivers/subinterface/controlller/main.go:44-75 | Delete targets the name Reconcile gave the slice of the same claim |
| `SampleReconciler.RepeatedDeleteSucceeds` | drivers/subinterface/controlller/main.go:77-82 | against a store that deletes or answers NotFound, delete succeeds, and once the slice is gone a second delete succeeds and changes nothing |
| `SampleReconciler.AsReconciler` | drivers/subinterface/controlller/main.go:110-113 | the reconciler behind the controller's interface: relevant exactly for `gpu.example.com`, Reconcile always answers a non-nil slice, Delete fails exactly when the reconciler's Delete does |
| `SampleReconciler.SampleController` | drivers/subinterface/controlller/main.go:115-116 | the controller is named `sample-controller`, uses the given client, and its reconciler's Delete fails exactly when the sample Delete does |
| `SampleReconciler.SampleControllerCreatesOwnedSlice` | drivers/subinterface/controlller/main.go:110-117 | the wired controller turns an allocated `gpu.example.com` claim into one Create of the claim-owned slice named after it |
| `SampleReconciler.SampleControllerIgnoresForeignClass` | drivers/subinterface/controlller/main.go:38-40 | a claim whose class is named otherwise is looked up and left alone |
| `SampleReconciler.SampleControllerDeletesCreatedSlice` | drivers/subinterface/controlller/main.go:74-83 | deleting a claim, plain or in a tombstone, makes one reconciler Delete aimed at the slice the controller created |
| `ResourceApi.ControllerRef` | pkg/controller/controller.go:102 | the reference names the claim (kind `ResourceClaim`, `resource.k8s.io/v1`, its name and UID) and is marked controller and block-owner-deletion |
| `Controller.OwnedByClaim` | pkg/controller/controller.go:101-103 | the slice's owner references become exactly the claim's controller reference; name and spec are kept |
| `Controller.AddOrUpdate` | pkg/controller/controller.go:71-115 | no call unless the object is an allocated claim; then the class lookup; Reconcile only after a found, relevant class; Create, last and at most once, only after a reconcile that returned a slice, with that slice owned by the claim; a nil slice without an error ends the run in a nil-dereference panic before Create |
| `Controller.OnAdd` | pkg/controller/controller.go:51 | the add handler makes no call for a non-claim or unallocated claim, and any slice it creates is owned by the claim |
| `Controller.OnUpdate` | pkg/controller/controller.go:52 | the update handler is the add handler applied to the new object |
| `Controller.UpdateIsAddOfNewObject` | pkg/controller/controller.go:50-54 | an update behaves as an add of the new object, whatever the old one |
| `Controller.IgnoredObjectsMakeNoCalls` | pkg/controller/controller.go:72-80 | a non-claim or an unallocated claim leads to no lookup, reconcile or create |
| `Controller.LookupFailureOrIrrelevantClassStops` | pkg/controller/controller.go:83-91 | a failed lookup or an irrelevant class stops after the lookup |
| `Controller.ReconcileErrorSkipsCreate` | pkg/controller/controller.go:95-99 | a reconcile error means no create |
| `Controller.CreatedSliceIsOwnedByClaim` | pkg/controller/controller.go:101-105 | Create happens at most once, on a slice whose only owner reference is the claim's controller reference and which is otherwise the reconciled slice |
| `Controller.CreateAnswerOnlyAffectsLog` | pkg/controller/controller.go:105-114 | the Create answer changes no call; success ends as created, AlreadyExists always ends as the benign "already exists" and conversely, any other error ends as a failed create |
| `Controller.DeletedClaim` | pkg/controller/controller.go:119-132 | a claim is taken as is or out of a tombstone, anything else is refused |
| `Controller.OnDelete` | pkg/controller/controller.go:118-138 | one reconciler Delete for a recovered claim, no call otherwise |
| `Controller.DeleteCallsReconcilerOnce` | pkg/controller/controller.go:118-138 | Delete is called exactly once for a claim or a tombstone holding a claim, never otherwise (a tombstone of a tombstone included) |

## Left out

- `netlink.LinkList`, `NsAttachNetdev` and `NsDetachNetdev` are system calls whose code is not part of this model; they enter as the outcome they return (a link list or an error, an optional move error).
- The MAC address text (`HardwareAddr.String()`) is carried on each link as an already formatted string.
- `resource.MustParse("4Gi")` is kept as the string `4Gi`; quantity parsing is a library call.
- `os.Stat` and `os.WriteFile` are modelled by their outcomes; a failed write leaves whatever contents the file system reports, and the file mode 0644 is not modelled.
- The host-device UnprepareDevice (drivers/hostdevice/main.go:92-95) returns nil and does nothing; there is nothing to state about it.
- Error values carry the data their message is formatted from, not the formatted text, except where a reconciler's Delete error reaches the controller: `SampleReconciler.ErrorMessage` gives it as text, the slice name followed by the wrapped API error's text; Kubernetes' exact status messages are not modelled.
- The owner-reference update on the reconciled slice is modelled on a value: the aliasing of the pointer returned by the reconciler is not captured.
- The controller looks up `claim.Spec.DeviceClassName` as a single name, as written.
- `HandleError` and all logging, beyond which branch a handler ended in.
- `main`, `init`, `setupHTTPServer`, `newClientset`, `printVersion` and the `ready` flag in the three binaries: flags, HTTP endpoints, client construction and process lifecycle.
- `Controller.Run`, the informer and cache syncing: an event loop with concurrency. `NewController` is modelled only through the handlers it registers.
- `pkg/net/subinterfaces.go`: netlink and namespace system calls only; its macvlan/ipvlan remark is a comment, not a check.
- The framework `Plugin` that owns `SharedState` (pkg/driver/driver.go:52-57), and with it the per-workload prepared-state table and sandbox-hook coordination, is not part of this model.
- Contexts and their cancellation.
