/**
 * The node agent of the sub-interface example (drivers/subinterface/node/main.go): it
 * simulates one node-local resource with a single file. The resource is advertised
 * while the file exists; preparing a claim writes the claim's UID into the file and
 * unpreparing writes an empty string. The pod hooks do nothing.
 *
 * The file is the agent's only state: `resourceFile` holds its contents, `None` when
 * it does not exist. File system faults enter as parameters.
 */
module NodeAgent {
  import opened Wrappers
  import opened ResourceApi
  import opened Driver

  /** Path of the simulated resource. */
  const ResourceFilePath: string := "/tmp/special-node-resource"

  /** The one device the agent advertises. */
  function SpecialResource(): Device
  {
    Device("special-resource-0", map["feature" := "enabled"], map[])
  }

  /** What `os.Stat` reports: success, or an error that is or is not "does not exist". */
  datatype StatResult = StatOk | StatError(notExist: bool, message: string)

  /** `os.Stat` of the resource file; `fault` is an error other than non-existence that
      the file system may report instead (a permission error, say). */
  function Stat(file: Option<string>, fault: Option<string>): StatResult
  {
    if fault.Some? then StatError(false, fault.value)
    else if file.None? then StatError(true, "no such file or directory")
    else StatOk
  }

  /** What `os.WriteFile` does. A failed write leaves behind whatever the file system
      left: the old file, nothing, or a truncated one. */
  datatype WriteOutcome = Written | WriteFailed(reason: string, residue: Option<string>)

  /** The file after writing `content` with the given outcome. */
  function AfterWrite(file: Option<string>, content: string, w: WriteOutcome): Option<string>
  {
    if w.Written? then Some(content) else w.residue
  }

  datatype NodeAgentError =
    | PrepareWriteFailed(reason: string)   // wrapped by PrepareDevice
    | FileWriteFailed(reason: string)      // returned as is by UnprepareDevice

  class NodeAgentDriver {
    /** Contents of the resource file, `None` while it does not exist. */
    var resourceFile: Option<string>

    constructor (initial: Option<string>)
      ensures resourceFile == initial
    {
      resourceFile := initial;
    }

    /** GetDevices: nothing when the file does not exist, otherwise exactly the special
        resource; any stat failure other than non-existence counts as present. */
    method GetDevices(statFault: Option<string>) returns (devices: seq<Device>, err: Option<NodeAgentError>)
      ensures err.None?
      ensures devices == [] <==> resourceFile.None? && statFault.None?
      ensures devices != [] ==> devices == [SpecialResource()]
      ensures devices != [] ==> devices[0].name == "special-resource-0" && devices[0].attributes == map["feature" := "enabled"]
    {
      var st := Stat(resourceFile, statFault);
      if st.StatError? && st.notExist {
        return [], None;
      }
      devices := [SpecialResource()];
      err := None;
    }

    /** PrepareDevice: writes the claim UID into the file, overwriting any earlier holder,
        and returns the UID as prepared data; a failed write returns an error and no data. */
    method PrepareDevice(claim: ResourceClaim, w: WriteOutcome) returns (prepared: Value, err: Option<NodeAgentError>)
      modifies this
      ensures resourceFile == AfterWrite(old(resourceFile), claim.uid, w)
      ensures w.Written? ==> resourceFile == Some(claim.uid) && prepared == StringValue(claim.uid) && err.None?
      ensures w.WriteFailed? ==> prepared == NilValue && err == Some(PrepareWriteFailed(w.reason))
    {
      var podUid := claim.uid;
      resourceFile := AfterWrite(resourceFile, podUid, w);
      if w.WriteFailed? {
        return NilValue, Some(PrepareWriteFailed(w.reason));
      }
      return StringValue(podUid), None;
    }

    /** UnprepareDevice: writes an empty string, so the file still exists afterwards. */
    method UnprepareDevice(claim: NamespacedObject, w: WriteOutcome) returns (err: Option<NodeAgentError>)
      modifies this
      ensures resourceFile == AfterWrite(old(resourceFile), "", w)
      ensures w.Written? ==> resourceFile == Some("") && err.None?
      ensures w.WriteFailed? ==> err == Some(FileWriteFailed(w.reason))
    {
      resourceFile := AfterWrite(resourceFile, "", w);
      if w.WriteFailed? {
        return Some(FileWriteFailed(w.reason));
      }
      return None;
    }

    /** ConfigureDeviceForPod: succeeds and changes nothing. */
    method ConfigureDeviceForPod(device: AllocatedDevice, netns: string, pod: PodSandbox, prepared: Value)
      returns (err: Option<NodeAgentError>)
      ensures err.None?
    {
      err := None;
    }

    /** CleanupDeviceForPod: succeeds and changes nothing. */
    method CleanupDeviceForPod(device: AllocatedDevice, netns: string, pod: PodSandbox, prepared: Value)
      returns (err: Option<NodeAgentError>)
      ensures err.None?
    {
      err := None;
    }
  }

  /** Only a missing file makes stat report non-existence. */
  lemma StatNotExistOnlyWhenAbsent(file: Option<string>, fault: Option<string>)
    ensures (Stat(file, fault).StatError? && Stat(file, fault).notExist) <==> file.None? && fault.None?
  {
  }

  /** A successful write replaces the old contents whatever they were: the last prepared
      claim holds the resource. */
  lemma WriteOverwritesHolder(file: Option<string>, first: string, second: string)
    ensures AfterWrite(AfterWrite(file, first, Written), second, Written) == Some(second)
  {
  }

  /** Unpreparing twice leaves the same file as unpreparing once. */
  lemma UnprepareIdempotent(file: Option<string>)
    ensures AfterWrite(AfterWrite(file, "", Written), "", Written) == AfterWrite(file, "", Written)
  {
  }

  /** After a successful unprepare the file exists, so the resource stays advertised. */
  lemma UnpreparedFileStillPresent(file: Option<string>)
    ensures AfterWrite(file, "", Written).Some?
    ensures !Stat(AfterWrite(file, "", Written), None).StatError?
  {
  }
}
