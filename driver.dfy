/**
 * The types shared by every driver through the framework's `Driver` interface
 * (pkg/driver/driver.go): the allocated device handed to the pod hooks, the pod
 * sandbox, the claim reference passed to unprepare, and the untyped "prepared data"
 * value that a driver's PrepareDevice returns and its pod hooks receive back.
 */
module Driver {

  datatype AllocatedDevice = AllocatedDevice(
    name: string,
    attributes: map<string, string>,
    poolName: string,
    request: string)

  /** The runtime's pod sandbox, reduced to what the hooks log. */
  datatype PodSandbox = PodSandbox(namespace: string, name: string, uid: string)

  /** `kubeletplugin.NamespacedObject`: a claim named by namespace, name and UID. */
  datatype NamespacedObject = NamespacedObject(namespace: string, name: string, uid: string)

  /** A Go `interface{}` value as prepared data: a string, nil, or a value of some other
      dynamic type, known only by its type name. */
  datatype Value = StringValue(s: string) | NilValue | OtherValue(typeName: string)

  /** The dynamic type name that Go's `%T` verb prints for the value. */
  function TypeName(v: Value): string
  {
    match v
    case StringValue(_) => "string"
    case NilValue => "<nil>"
    case OtherValue(t) => t
  }
}
