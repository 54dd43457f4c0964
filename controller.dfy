/**
 * The generic claim controller (pkg/controller/controller.go). For every added or
 * updated ResourceClaim that is allocated, it looks up the claim's DeviceClass, asks the
 * reconciler whether the class is its own, has the reconciler build a ResourceSlice,
 * makes the claim the slice's controlling owner and creates the slice. For every deleted
 * claim, read directly or out of a tombstone, it calls the reconciler's Delete.
 *
 * The API client and the reconciler are supplied as the outcomes they produce. A handler
 * run is described by the calls it makes, in order, and by how it ended; the handlers
 * never return an error, they only log.
 */
module Controller {
  import opened Wrappers
  import opened ResourceApi

  /** An object as the informer delivers it to a handler. */
  datatype Object =
    | ClaimObject(claim: ResourceClaim)
    | Tombstone(key: string, obj: Object)   // cache.DeletedFinalStateUnknown
    | OtherObject(typeName: string)

  /** The API calls the handlers make, as what the API server answers. */
  datatype Client = Client(
    getDeviceClass: string -> Result<DeviceClass, ApiError>,
    createResourceSlice: ResourceSlice -> Option<ApiError>)

  /** A controller implementation behind the Reconciler interface; errors are messages.
      `reconcile` answers with a slice pointer, `None` standing for a nil one. */
  datatype Reconciler = Reconciler(
    isDeviceClassRelevant: DeviceClass -> bool,
    reconcile: ResourceClaim -> Result<Option<ResourceSlice>, string>,
    delete: ResourceClaim -> Option<string>)

  datatype Controller = Controller(controllerName: string, kubeClient: Client, reconciler: Reconciler)

  /** A call a handler makes. */
  datatype Action =
    | GetDeviceClass(className: string)
    | Reconcile(claim: ResourceClaim)
    | CreateResourceSlice(slice: ResourceSlice)
    | Delete(claim: ResourceClaim)

  /** How a handler run ended: each is a log line, none reaches a caller. */
  datatype Outcome =
    | InvalidObjectType(typeName: string)
    | NotAllocated
    | DeviceClassLookupFailed(lookupError: ApiError)
    | DeviceClassNotRelevant
    | ReconcileFailed(message: string)
    | NilSlicePanic   // a nil slice without an error: setting its owners dereferences nil
    | SliceCreated
    | SliceAlreadyExists
    | SliceCreateFailed(createError: ApiError)
    | TombstoneUnreadable
    | TombstoneNotClaim
    | ClaimResourcesDeleted
    | ClaimDeleteFailed(message: string)

  datatype Run = Run(actions: seq<Action>, outcome: Outcome)

  function TypeName(obj: Object): string
  {
    match obj
    case ClaimObject(_) => "*v1.ResourceClaim"
    case Tombstone(_, _) => "cache.DeletedFinalStateUnknown"
    case OtherObject(t) => t
  }

  /** The slice handed to Create: the reconciled slice with its owner references
      replaced by the single controller reference to the claim. */
  function OwnedByClaim(slice: ResourceSlice, claim: ResourceClaim): (r: ResourceSlice)
    ensures r.ownerReferences == [ControllerRef(claim)]
    ensures r.name == slice.name && r.spec == slice.spec
  {
    slice.(ownerReferences := [ControllerRef(claim)])
  }

  /** The handler for added claims, and for updated ones with the new object. */
  function AddOrUpdate(c: Controller, obj: Object): (r: Run)
    ensures r.actions == [] <==> !obj.ClaimObject? || obj.claim.allocation.None?
    ensures |r.actions| <= 3
    ensures |r.actions| >= 1 ==> r.actions[0] == GetDeviceClass(obj.claim.deviceClassName)
    ensures |r.actions| >= 2 <==>
      obj.ClaimObject? && obj.claim.allocation.Some? &&
      c.kubeClient.getDeviceClass(obj.claim.deviceClassName).Success? &&
      c.reconciler.isDeviceClassRelevant(c.kubeClient.getDeviceClass(obj.claim.deviceClassName).value)
    ensures |r.actions| >= 2 ==> r.actions[1] == Reconcile(obj.claim)
    ensures |r.actions| == 3 <==>
      |r.actions| >= 2 && c.reconciler.reconcile(obj.claim).Success? && c.reconciler.reconcile(obj.claim).value.Some?
    ensures |r.actions| == 3 ==>
      r.actions[2] == CreateResourceSlice(OwnedByClaim(c.reconciler.reconcile(obj.claim).value.value, obj.claim))
    ensures r.outcome == NilSlicePanic <==>
      |r.actions| == 2 && c.reconciler.reconcile(obj.claim) == Success(None)
  {
    if !obj.ClaimObject? then Run([], InvalidObjectType(TypeName(obj)))
    else
      var claim := obj.claim;
      if claim.allocation.None? then Run([], NotAllocated)
      else
        var lookup := c.kubeClient.getDeviceClass(claim.deviceClassName);
        var get := [GetDeviceClass(claim.deviceClassName)];
        if lookup.Failure? then Run(get, DeviceClassLookupFailed(lookup.error))
        else if !c.reconciler.isDeviceClassRelevant(lookup.value) then Run(get, DeviceClassNotRelevant)
        else
          var reconciled := c.reconciler.reconcile(claim);
          if reconciled.Failure? then Run(get + [Reconcile(claim)], ReconcileFailed(reconciled.error))
          else if reconciled.value.None? then Run(get + [Reconcile(claim)], NilSlicePanic)
          else
            var slice := OwnedByClaim(reconciled.value.value, claim);
            var created := c.kubeClient.createResourceSlice(slice);
            var outcome :=
              if created.None? then SliceCreated
              else if created.value == AlreadyExists then SliceAlreadyExists
              else SliceCreateFailed(created.value);
            Run(get + [Reconcile(claim), CreateResourceSlice(slice)], outcome)
  }

  /** The add handler as registered with the informer. */
  function OnAdd(c: Controller, obj: Object): (r: Run)
    ensures r.actions == [] <==> !obj.ClaimObject? || obj.claim.allocation.None?
    ensures forall a :: a in r.actions && a.CreateResourceSlice? ==> a.slice.ownerReferences == [ControllerRef(obj.claim)]
  {
    AddOrUpdate(c, obj)
  }

  /** The update handler as registered with the informer: the old object is dropped. */
  function OnUpdate(c: Controller, oldObj: Object, newObj: Object): (r: Run)
    ensures r == OnAdd(c, newObj)
  {
    AddOrUpdate(c, newObj)
  }

  /** An update behaves exactly like an add of the new object, whatever the old one was. */
  lemma UpdateIsAddOfNewObject(c: Controller, oldObj: Object, otherOld: Object, newObj: Object)
    ensures OnUpdate(c, oldObj, newObj) == OnAdd(c, newObj)
    ensures OnUpdate(c, oldObj, newObj) == OnUpdate(c, otherOld, newObj)
  {
  }

  /** A non-claim object, or a claim without allocation, makes no call at all. */
  lemma IgnoredObjectsMakeNoCalls(c: Controller, obj: Object)
    requires !obj.ClaimObject? || obj.claim.allocation.None?
    ensures AddOrUpdate(c, obj).actions == []
    ensures !obj.ClaimObject? ==> AddOrUpdate(c, obj).outcome == InvalidObjectType(TypeName(obj))
  {
  }

  /** A failed DeviceClass lookup, or a class the reconciler does not own, stops after the
      lookup: no reconcile, no create. */
  lemma LookupFailureOrIrrelevantClassStops(c: Controller, claim: ResourceClaim)
    requires claim.allocation.Some?
    requires var lookup := c.kubeClient.getDeviceClass(claim.deviceClassName);
             lookup.Failure? || !c.reconciler.isDeviceClassRelevant(lookup.value)
    ensures AddOrUpdate(c, ClaimObject(claim)).actions == [GetDeviceClass(claim.deviceClassName)]
  {
  }

  /** A reconcile error means no create. */
  lemma ReconcileErrorSkipsCreate(c: Controller, claim: ResourceClaim)
    requires c.reconciler.reconcile(claim).Failure?
    ensures forall a :: a in AddOrUpdate(c, ClaimObject(claim)).actions ==> !a.CreateResourceSlice?
  {
  }

  /** Create is attempted at most once per event, and the slice it is given carries
      exactly one owner reference: a controller reference to the claim. Everything else
      in the slice is what the reconciler built. */
  lemma CreatedSliceIsOwnedByClaim(c: Controller, obj: Object)
    ensures var acts := AddOrUpdate(c, obj).actions;
            forall i, j ::
              (0 <= i < |acts| && 0 <= j < |acts| && acts[i].CreateResourceSlice? && acts[j].CreateResourceSlice?) ==> i == j
    ensures forall a :: a in AddOrUpdate(c, obj).actions && a.CreateResourceSlice? ==>
      obj.ClaimObject? && c.reconciler.reconcile(obj.claim).Success? && c.reconciler.reconcile(obj.claim).value.Some? &&
      a.slice.ownerReferences == [ControllerRef(obj.claim)] &&
      a.slice.ownerReferences[0].controller &&
      a.slice.(ownerReferences := []) == c.reconciler.reconcile(obj.claim).value.value.(ownerReferences := [])
  {
  }

  /** The answer to Create only changes what is logged: AlreadyExists and every other
      failure leave the same calls behind. A success ends as created, AlreadyExists ends as
      the benign "already exists", and only another failure ends as a failed create. */
  lemma CreateAnswerOnlyAffectsLog(c: Controller, obj: Object, create: ResourceSlice -> Option<ApiError>)
    ensures var c' := c.(kubeClient := c.kubeClient.(createResourceSlice := create));
            AddOrUpdate(c', obj).actions == AddOrUpdate(c, obj).actions
    ensures AddOrUpdate(c, obj).outcome == SliceAlreadyExists ==>
            |AddOrUpdate(c, obj).actions| == 3 &&
            c.kubeClient.createResourceSlice(AddOrUpdate(c, obj).actions[2].slice) == Some(AlreadyExists)
    ensures var r := AddOrUpdate(c, obj);
            |r.actions| == 3 ==>
              var answer := c.kubeClient.createResourceSlice(r.actions[2].slice);
              (answer.None? ==> r.outcome == SliceCreated) &&
              (answer == Some(AlreadyExists) ==> r.outcome == SliceAlreadyExists) &&
              (answer.Some? && answer.value != AlreadyExists ==> r.outcome == SliceCreateFailed(answer.value))
    ensures var r := AddOrUpdate(c, obj);
            (r.outcome.SliceCreated? || r.outcome.SliceAlreadyExists? || r.outcome.SliceCreateFailed?) ==> |r.actions| == 3
  {
  }

  /** The claim a deleted object stands for: the object itself, or the object a tombstone
      holds; anything else is logged and dropped. */
  function DeletedClaim(obj: Object): (r: Result<ResourceClaim, Outcome>)
    ensures r.Success? <==> obj.ClaimObject? || (obj.Tombstone? && obj.obj.ClaimObject?)
    ensures r.Success? ==> r.value == (if obj.ClaimObject? then obj.claim else obj.obj.claim)
  {
    match obj
    case ClaimObject(claim) => Success(claim)
    case Tombstone(_, inner) =>
      if inner.ClaimObject? then Success(inner.claim) else Failure(TombstoneNotClaim)
    case OtherObject(_) => Failure(TombstoneUnreadable)
  }

  /** The delete handler. */
  function OnDelete(c: Controller, obj: Object): (r: Run)
    ensures DeletedClaim(obj).Success? ==> r.actions == [Delete(DeletedClaim(obj).value)]
    ensures DeletedClaim(obj).Failure? ==> r.actions == []
  {
    match DeletedClaim(obj)
    case Failure(outcome) => Run([], outcome)
    case Success(claim) =>
      var err := c.reconciler.delete(claim);
      Run([Delete(claim)], if err.None? then ClaimResourcesDeleted else ClaimDeleteFailed(err.value))
  }

  /** Delete reaches the reconciler exactly once for a claim or a tombstone wrapping one,
      and never for anything else, such as a tombstone of a tombstone. */
  lemma DeleteCallsReconcilerOnce(c: Controller, obj: Object)
    ensures var acts := OnDelete(c, obj).actions;
            (|acts| == 1 && acts[0].Delete?) <==> obj.ClaimObject? || (obj.Tombstone? && obj.obj.ClaimObject?)
    ensures var acts := OnDelete(c, obj).actions;
            |acts| <= 1 && (acts == [] <==> !(obj.ClaimObject? || (obj.Tombstone? && obj.obj.ClaimObject?)))
  {
  }
}
