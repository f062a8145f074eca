/**
 * Adapter-type normalisation for disk descriptors, and the lookup of a
 * VM's disk file and of the adapter type of the controller it sits on.
 */
module VmdkInfo {
  import opened Common
  import opened Devices

  // ---------------------------------------------------------------------
  // get_vmdk_adapter_type
  // ---------------------------------------------------------------------

  /** The adapter type written into a disk descriptor: LSI Logic SAS disks
      are described as LSI Logic; every other value, known or not, passes
      through. */
  function GetVmdkAdapterType(adapterType: string): (r: string)
    ensures r != LSI_LOGIC_SAS
    ensures r == adapterType || (adapterType == LSI_LOGIC_SAS && r == LSI_LOGIC)
  {
    if adapterType == LSI_LOGIC_SAS then LSI_LOGIC else adapterType
  }

  /** Normalising twice changes nothing more. */
  lemma VmdkAdapterTypeIdempotent(adapterType: string)
    ensures GetVmdkAdapterType(GetVmdkAdapterType(adapterType)) == GetVmdkAdapterType(adapterType)
  {
  }

  /** Two adapter types get the same descriptor string exactly when they are
      equal or are the LSI Logic pair. */
  lemma VmdkAdapterTypeSameDescriptor(a: string, b: string)
    ensures GetVmdkAdapterType(a) == GetVmdkAdapterType(b)
            <==> a == b || (a in {LSI_LOGIC, LSI_LOGIC_SAS} && b in {LSI_LOGIC, LSI_LOGIC_SAS})
  {
  }

  lemma TestGetVmdkAdapterType()
    ensures GetVmdkAdapterType("lsiLogic") == "lsiLogic"
    ensures GetVmdkAdapterType("lsiLogicsas") == "lsiLogic"
    ensures GetVmdkAdapterType("dummyAdapter") == "dummyAdapter"
  {
  }

  // ---------------------------------------------------------------------
  // get_vmdk_path_and_adapter_type
  // ---------------------------------------------------------------------

  /** `sub` occurs in `s` starting at index `i`. */
  predicate OccursAt(s: string, sub: string, i: int) {
    0 <= i <= |s| - |sub| && s[i..i + |sub|] == sub
  }

  /** Python's `sub in s` on strings. */
  predicate Contains(s: string, sub: string) {
    exists i :: 0 <= i <= |s| && OccursAt(s, sub, i)
  }

  lemma ContainsEmpty(s: string)
    ensures Contains(s, "")
  {
    assert OccursAt(s, "", 0);
  }

  /** What the lookup reports: the disk's path (None when no disk matched)
      and the adapter type of the controller the last disk sits on ("" when
      none is known). */
  datatype VmdkInfo = VmdkInfo(path: Option<string>, adapterType: string)

  predicate IsFlatDisk(d: Device) {
    d.cls.VirtualDisk? && d.cls.flatFileName.Some?
  }

  /** A flat disk whose file name contains the uuid, or any flat disk when
      no uuid is given. */
  predicate MatchesUuid(d: Device, uuid: Option<string>) {
    IsFlatDisk(d) && (uuid.None? || Contains(d.cls.flatFileName.value, uuid.value))
  }

  function ControllerKeyOf(d: Device): Option<int> {
    if d.attachment.Some? then Some(d.attachment.value.controllerKey) else None
  }

  /** A controller of a recognised class under key `k`. */
  predicate IsControllerAt(d: Device, k: int) {
    d.key == k && ControllerAdapterType(d).Some?
  }

  /** Index of the last device matching the uuid (with None: the last flat disk). */
  function LastMatch(devices: seq<Device>, uuid: Option<string>): (r: Option<nat>)
    ensures r.Some? ==> r.value < |devices| && MatchesUuid(devices[r.value], uuid)
                        && forall j :: r.value < j < |devices| ==> !MatchesUuid(devices[j], uuid)
    ensures r.None? ==> forall j :: 0 <= j < |devices| ==> !MatchesUuid(devices[j], uuid)
    decreases |devices|
  {
    if devices == [] then None
    else if MatchesUuid(devices[|devices| - 1], uuid) then Some(|devices| - 1)
    else
      var r := LastMatch(devices[..|devices| - 1], uuid);
      assert forall j :: 0 <= j < |devices| - 1 ==> devices[j] == devices[..|devices| - 1][j];
      r
  }

  /** Adapter type of the last recognised controller under key `k`. */
  function LastControllerAdapter(devices: seq<Device>, k: int): (r: Option<string>)
    ensures r.Some? ==> exists c :: 0 <= c < |devices| && IsControllerAt(devices[c], k)
                          && ControllerAdapterType(devices[c]) == r
                          && forall j :: c < j < |devices| ==> !IsControllerAt(devices[j], k)
    ensures r.None? ==> forall c :: 0 <= c < |devices| ==> !IsControllerAt(devices[c], k)
    decreases |devices|
  {
    if devices == [] then None
    else if IsControllerAt(devices[|devices| - 1], k) then ControllerAdapterType(devices[|devices| - 1])
    else
      var r := LastControllerAdapter(devices[..|devices| - 1], k);
      assert forall j :: 0 <= j < |devices| - 1 ==> devices[j] == devices[..|devices| - 1][j];
      r
  }

  /** The reported adapter type: that of the controller the last flat disk
      is attached to, or "" when there is no disk or no such controller. */
  function DiskAdapterType(devices: seq<Device>): string {
    match LastMatch(devices, None)
    case None => ""
    case Some(i) =>
      match ControllerKeyOf(devices[i])
      case None => ""
      case Some(k) =>
        match LastControllerAdapter(devices, k)
        case None => ""
        case Some(a) => a
  }

  /** The loop's state: the path found so far, the controller key of the
      last flat disk, and the adapter type recorded per controller key. */
  datatype ScanState = ScanState(path: Option<string>, diskControllerKey: Option<int>, adapterTypes: map<int, string>)

  function Step(st: ScanState, d: Device, uuid: Option<string>): ScanState {
    if IsFlatDisk(d) then
      ScanState(if MatchesUuid(d, uuid) then d.cls.flatFileName else st.path, ControllerKeyOf(d), st.adapterTypes)
    else if ControllerAdapterType(d).Some? then
      st.(adapterTypes := st.adapterTypes[d.key := ControllerAdapterType(d).value])
    else st
  }

  function Scan(devices: seq<Device>, uuid: Option<string>): ScanState
    decreases |devices|
  {
    if devices == [] then ScanState(None, None, map[])
    else Step(Scan(devices[..|devices| - 1], uuid), devices[|devices| - 1], uuid)
  }

  /** The scan's path is the file name of the last disk matching the uuid. */
  lemma {:induction false} ScanPath(devices: seq<Device>, uuid: Option<string>)
    ensures Scan(devices, uuid).path == (match LastMatch(devices, uuid) case Some(i) => devices[i].cls.flatFileName case None => None)
    decreases |devices|
  {
    if devices != [] {
      var n := |devices| - 1;
      ScanPath(devices[..n], uuid);
      assert forall j :: 0 <= j < n ==> devices[j] == devices[..n][j];
    }
  }

  /** The scan's controller key is that of the last flat disk, whatever its
      file name. */
  lemma {:induction false} ScanDiskKey(devices: seq<Device>, uuid: Option<string>)
    ensures Scan(devices, uuid).diskControllerKey == (match LastMatch(devices, None) case Some(i) => ControllerKeyOf(devices[i]) case None => None)
    decreases |devices|
  {
    if devices != [] {
      var n := |devices| - 1;
      ScanDiskKey(devices[..n], uuid);
      assert forall j :: 0 <= j < n ==> devices[j] == devices[..n][j];
    }
  }

  /** The scan records, under each key, the adapter type of the last
      recognised controller with that key. */
  lemma {:induction false} ScanAdapterTypes(devices: seq<Device>, uuid: Option<string>)
    ensures forall k :: k in Scan(devices, uuid).adapterTypes <==> LastControllerAdapter(devices, k).Some?
    ensures forall k :: k in Scan(devices, uuid).adapterTypes ==> Some(Scan(devices, uuid).adapterTypes[k]) == LastControllerAdapter(devices, k)
    decreases |devices|
  {
    if devices != [] {
      var n := |devices| - 1;
      ScanAdapterTypes(devices[..n], uuid);
    }
  }

  /** `get_vmdk_path_and_adapter_type`: one pass over the devices; each
      flat disk overwrites the controller key (and, when it matches the
      uuid, the path), each recognised controller records its adapter type
      under its key. */
  method GetVmdkPathAndAdapterType(devices: seq<Device>, uuid: Option<string>) returns (info: VmdkInfo)
    ensures info.path.Some? <==> exists i :: 0 <= i < |devices| && MatchesUuid(devices[i], uuid)
    ensures info.path.Some? ==> exists i :: 0 <= i < |devices| && MatchesUuid(devices[i], uuid)
                                  && devices[i].cls.flatFileName == info.path
                                  && forall j :: i < j < |devices| ==> !MatchesUuid(devices[j], uuid)
    ensures info.adapterType == DiskAdapterType(devices)
  {
    var path: Option<string> := None;
    var diskControllerKey: Option<int> := None;
    var adapterTypes: map<int, string> := map[];
    for i := 0 to |devices|
      invariant ScanState(path, diskControllerKey, adapterTypes) == Scan(devices[..i], uuid)
    {
      var d := devices[i];
      match d.cls {
        case VirtualDisk(Some(fileName)) =>
          if uuid.Some? && uuid.value != "" {
            if Contains(fileName, uuid.value) {
              path := Some(fileName);
            }
          } else {
            if uuid.Some? {
              ContainsEmpty(fileName);
            }
            path := Some(fileName);
          }
          diskControllerKey := ControllerKeyOf(d);
        case IdeController =>
          adapterTypes := adapterTypes[d.key := IDE];
        case ScsiController(kind, _) =>
          adapterTypes := adapterTypes[d.key := ScsiAdapterType(kind)];
        case _ =>
      }
      assert devices[..i + 1][..i] == devices[..i];
    }
    assert devices[..|devices|] == devices;
    ScanPath(devices, uuid);
    ScanDiskKey(devices, uuid);
    ScanAdapterTypes(devices, uuid);
    var adapterType := if diskControllerKey.Some? && diskControllerKey.value in adapterTypes then adapterTypes[diskControllerKey.value] else "";
    info := VmdkInfo(path, adapterType);
  }

  // ---------------------------------------------------------------------
  // Cases from the test suite
  // ---------------------------------------------------------------------

  /** A flat disk on controller 1000 and an LSI Logic SAS controller 1000. */
  function SasDiskDevices(fileName: string): seq<Device> {
    [Device(0, VirtualDisk(Some(fileName)), Some(Slot(1000, 0))),
     Device(1000, ScsiController(LsiLogicSasController, 7), None)]
  }

  method TestGetVmdkPathAndAdapterType() returns (info: VmdkInfo)
    ensures info == VmdkInfo(Some("[test_datastore] test_file.vmdk"), "lsiLogicsas")
  {
    var devices := SasDiskDevices("[test_datastore] test_file.vmdk");
    info := GetVmdkPathAndAdapterType(devices, None);
    assert LastMatch(devices, None) == Some(0);
    assert LastControllerAdapter(devices, 1000) == Some(LSI_LOGIC_SAS);
  }

  method TestGetVmdkPathAndAdapterTypeWithMatch() returns (info: VmdkInfo)
    ensures info == VmdkInfo(Some("[test_datastore] uuid/uuid.vmdk"), "lsiLogicsas")
  {
    var fileName := "[test_datastore] uuid/uuid.vmdk";
    var devices := SasDiskDevices(fileName);
    assert OccursAt(fileName, "uuid", 17);
    info := GetVmdkPathAndAdapterType(devices, Some("uuid"));
    assert LastMatch(devices, None) == Some(0);
    assert LastControllerAdapter(devices, 1000) == Some(LSI_LOGIC_SAS);
  }

  method TestGetVmdkPathAndAdapterTypeWithNoMatch() returns (info: VmdkInfo)
    ensures info == VmdkInfo(None, "lsiLogicsas")
  {
    var fileName := "[test_datastore] diuu/diuu.vmdk";
    var devices := SasDiskDevices(fileName);
    forall i ensures !OccursAt(fileName, "uuid", i) {
      NoUuidInDiuuPath(i);
    }
    info := GetVmdkPathAndAdapterType(devices, Some("uuid"));
    assert LastMatch(devices, None) == Some(0);
    assert LastControllerAdapter(devices, 1000) == Some(LSI_LOGIC_SAS);
  }

  /** "uuid" occurs nowhere in "[test_datastore] diuu/diuu.vmdk": at every
      start index either the first letter is not 'u' or the third is not 'i'. */
  lemma NoUuidInDiuuPath(i: int)
    ensures !OccursAt("[test_datastore] diuu/diuu.vmdk", "uuid", i)
  {
    var s := "[test_datastore] diuu/diuu.vmdk";
    if 0 <= i <= |s| - 4 {
      assert i == 0 || i == 1 || i == 2 || i == 3 || i == 4 || i == 5 || i == 6 || i == 7 || i == 8 || i == 9
          || i == 10 || i == 11 || i == 12 || i == 13 || i == 14 || i == 15 || i == 16 || i == 17 || i == 18
          || i == 19 || i == 20 || i == 21 || i == 22 || i == 23 || i == 24 || i == 25 || i == 26 || i == 27;
      assert s[i] != 'u' || s[i + 2] != 'i';
      assert s[i..i + 4][0] == s[i] && s[i..i + 4][2] == s[i + 2];
    }
  }
}
