/**
 * Disk-slot bookkeeping and allocation: which (controller key, unit number)
 * pairs a device list already uses, and which free pair a new disk of a
 * given adapter type gets, on an existing controller or on a new one.
 */
module SlotAllocator {
  import opened Common
  import opened Devices

  /** Controller key -> unit numbers recorded on it, in the order the scan met them. */
  type Taken = map<int, seq<int>>

  /** Placeholder key of a controller that is created by the reconfiguration itself. */
  const NEW_CONTROLLER_KEY: int := -101

  /** Usable unit numbers are 0 .. limit-1. */
  const IDE_UNIT_LIMIT: nat := 2
  const SCSI_UNIT_LIMIT: nat := 16

  /** The arguments `create_controller_spec` is called with: the key and the
      adapter type. The device the spec factory builds from them is not
      modelled. */
  datatype ControllerSpec = ControllerSpec(key: int, adapterType: string)

  /** The answer of allocation: where the disk goes, and the controller to
      create first when it goes on a new one. */
  datatype Allocation = Allocation(controllerKey: int, unitNumber: int, controllerSpec: Option<ControllerSpec>)

  // ---------------------------------------------------------------------
  // Occupied slots
  // ---------------------------------------------------------------------

  /** Device `d` takes unit `u` of controller `k`: because it is attached
      there, or because it is a SCSI controller whose own unit on its own
      bus is `u`. */
  predicate Occupies(d: Device, k: int, u: int) {
    || d.attachment == Some(Slot(k, u))
    || (d.cls.ScsiController? && d.key == k && d.cls.scsiCtlrUnitNumber == u)
  }

  ghost predicate SlotOccupied(devices: seq<Device>, k: int, u: int) {
    exists i :: 0 <= i < |devices| && Occupies(devices[i], k, u)
  }

  /** `taken.get(k, [])` */
  function UnitsOf(taken: Taken, k: int): seq<int> {
    if k in taken then taken[k] else []
  }

  /** `taken.setdefault(k, []).append(u)` */
  function Append(taken: Taken, k: int, u: int): (r: Taken)
    ensures r.Keys == taken.Keys + {k}
  {
    taken[k := UnitsOf(taken, k) + [u]]
  }

  /** One step of the scan: the device's own attachment, then, for a SCSI
      controller, the controller's unit on its own bus. */
  function Record(taken: Taken, d: Device): Taken {
    var t := if d.attachment.Some? then Append(taken, d.attachment.value.controllerKey, d.attachment.value.unitNumber) else taken;
    if d.cls.ScsiController? then Append(t, d.key, d.cls.scsiCtlrUnitNumber) else t
  }

  /** The map `_find_allocated_slots` builds, as a fold over the device list. */
  function Allocated(devices: seq<Device>): Taken
    decreases |devices|
  {
    if devices == [] then map[]
    else Record(Allocated(devices[..|devices| - 1]), devices[|devices| - 1])
  }

  /** The units one device records on controller `k`, in recording order. */
  function DeviceUnits(d: Device, k: int): (r: seq<int>)
    ensures forall u :: u in r <==> Occupies(d, k, u)
  {
    (if d.attachment.Some? && d.attachment.value.controllerKey == k then [d.attachment.value.unitNumber] else [])
    + (if d.cls.ScsiController? && d.key == k then [d.cls.scsiCtlrUnitNumber] else [])
  }

  /** Per-controller reference definition: the units on `k`, device by device. */
  function UnitsOn(devices: seq<Device>, k: int): seq<int> {
    if devices == [] then [] else DeviceUnits(devices[0], k) + UnitsOn(devices[1..], k)
  }

  lemma {:induction false} UnitsOnSnoc(devices: seq<Device>, d: Device, k: int)
    ensures UnitsOn(devices + [d], k) == UnitsOn(devices, k) + DeviceUnits(d, k)
    decreases |devices|
  {
    if devices == [] {
      assert UnitsOn([d], k) == DeviceUnits(d, k) + UnitsOn([], k);
    } else {
      assert (devices + [d])[1..] == devices[1..] + [d];
      UnitsOnSnoc(devices[1..], d, k);
    }
  }

  lemma RecordUnits(taken: Taken, d: Device, k: int)
    ensures UnitsOf(Record(taken, d), k) == UnitsOf(taken, k) + DeviceUnits(d, k)
  {
  }

  /** The map built by the scan lists, under each key, exactly the units
      the devices take on that controller, in device order; a key is present
      only if something was recorded under it. */
  lemma {:induction false} AllocatedIsUnitsOn(devices: seq<Device>, k: int)
    ensures UnitsOf(Allocated(devices), k) == UnitsOn(devices, k)
    ensures k in Allocated(devices) ==> Allocated(devices)[k] != []
    decreases |devices|
  {
    if devices != [] {
      var n := |devices| - 1;
      assert devices == devices[..n] + [devices[n]];
      AllocatedIsUnitsOn(devices[..n], k);
      RecordUnits(Allocated(devices[..n]), devices[n], k);
      UnitsOnSnoc(devices[..n], devices[n], k);
    }
  }

  lemma {:induction false} UnitsOnMembers(devices: seq<Device>, k: int, u: int)
    ensures u in UnitsOn(devices, k) <==> SlotOccupied(devices, k, u)
    decreases |devices|
  {
    if devices != [] {
      UnitsOnMembers(devices[1..], k, u);
      if SlotOccupied(devices, k, u) && !Occupies(devices[0], k, u) {
        var i :| 0 <= i < |devices| && Occupies(devices[i], k, u);
        assert Occupies(devices[1..][i - 1], k, u);
      }
      if SlotOccupied(devices[1..], k, u) {
        var i :| 0 <= i < |devices[1..]| && Occupies(devices[1..][i], k, u);
        assert Occupies(devices[i + 1], k, u);
      }
    }
  }

  /** `_find_allocated_slots`: a unit is listed under a controller key
      exactly when some device occupies that slot. */
  lemma AllocatedExact(devices: seq<Device>, k: int, u: int)
    ensures u in UnitsOf(Allocated(devices), k) <==> SlotOccupied(devices, k, u)
    ensures k in Allocated(devices) <==> UnitsOn(devices, k) != []
  {
    AllocatedIsUnitsOn(devices, k);
    UnitsOnMembers(devices, k, u);
  }

  lemma AllocatedExactOn(devices: seq<Device>, k: int)
    ensures forall u :: u in UnitsOf(Allocated(devices), k) <==> SlotOccupied(devices, k, u)
  {
    forall u {
      AllocatedExact(devices, k, u);
    }
  }

  /** `_find_allocated_slots`, accumulating per-controller lists in a map. */
  method FindAllocatedSlots(devices: seq<Device>) returns (taken: Taken)
    ensures taken == Allocated(devices)
    ensures forall k, u :: u in UnitsOf(taken, k) <==> SlotOccupied(devices, k, u)
    ensures forall k :: k in taken <==> UnitsOn(devices, k) != []
    ensures forall k :: k in taken ==> taken[k] == UnitsOn(devices, k)
  {
    taken := map[];
    for i := 0 to |devices|
      invariant taken == Allocated(devices[..i])
    {
      var d := devices[i];
      if d.attachment.Some? {
        var k := d.attachment.value.controllerKey;
        var units := if k in taken then taken[k] else [];
        taken := taken[k := units + [d.attachment.value.unitNumber]];
      }
      if d.cls.ScsiController? {
        var units := if d.key in taken then taken[d.key] else [];
        taken := taken[d.key := units + [d.cls.scsiCtlrUnitNumber]];
      }
      assert devices[..i + 1][..i] == devices[..i];
    }
    assert devices[..|devices|] == devices;
    forall k, u ensures u in UnitsOf(taken, k) <==> SlotOccupied(devices, k, u) {
      AllocatedExact(devices, k, u);
    }
    forall k ensures (k in taken <==> UnitsOn(devices, k) != []) && (k in taken ==> taken[k] == UnitsOn(devices, k)) {
      AllocatedIsUnitsOn(devices, k);
    }
  }

  // ---------------------------------------------------------------------
  // First-fit allocation
  // ---------------------------------------------------------------------

  predicate IsScsiAdapterType(adapterType: string) {
    adapterType in [LSI_LOGIC, LSI_LOGIC_SAS, BUS_LOGIC, PARA_VIRTUAL]
  }

  /** A disk of this adapter type may go on controller `d`: an IDE
      controller for "ide", any SCSI-family controller for a SCSI adapter
      type, nothing for any other adapter type. */
  predicate Matches(d: Device, adapterType: string) {
    (adapterType == IDE && IsIdeController(d)) || (IsScsiAdapterType(adapterType) && IsScsiController(d))
  }

  /** Positions from `from` on of the controllers a disk of this adapter
      type may go on, in increasing order. */
  function MatchingIndices(devices: seq<Device>, adapterType: string, from: nat): (r: seq<nat>)
    requires from <= |devices|
    ensures |r| <= |devices| - from
    ensures forall j :: 0 <= j < |r| ==> from <= r[j] < |devices|
    ensures forall a, b :: 0 <= a < b < |r| ==> r[a] < r[b]
    ensures forall i :: from <= i < |devices| ==> (i in r <==> Matches(devices[i], adapterType))
    decreases |devices| - from
  {
    if from == |devices| then []
    else
      var rest := MatchingIndices(devices, adapterType, from + 1);
      if Matches(devices[from], adapterType) then [from] + rest else rest
  }

  /** Keys of the existing controllers a disk of this adapter type may go
      on, in device-list order. */
  function ControllerKeys(devices: seq<Device>, adapterType: string): (r: seq<int>)
    ensures |r| <= |devices|
    ensures forall k :: k in r <==> exists i :: 0 <= i < |devices| && Matches(devices[i], adapterType) && devices[i].key == k
    ensures |r| == |MatchingIndices(devices, adapterType, 0)|
    ensures forall p :: 0 <= p < |r| ==> r[p] == devices[MatchingIndices(devices, adapterType, 0)[p]].key
    ensures adapterType != IDE && !IsScsiAdapterType(adapterType) ==> r == []
  {
    var idx := MatchingIndices(devices, adapterType, 0);
    assert |idx| > 0 ==> Matches(devices[idx[0]], adapterType);
    var r := seq(|idx|, p requires 0 <= p < |idx| => devices[idx[p]].key);
    forall k | exists i :: 0 <= i < |devices| && Matches(devices[i], adapterType) && devices[i].key == k
      ensures k in r
    {
      var i :| 0 <= i < |devices| && Matches(devices[i], adapterType) && devices[i].key == k;
      assert i in idx;
      var p :| 0 <= p < |idx| && idx[p] == i;
      assert r[p] == k;
    }
    forall k | k in r
      ensures exists i :: 0 <= i < |devices| && Matches(devices[i], adapterType) && devices[i].key == k
    {
      var p :| 0 <= p < |r| && r[p] == k;
      assert Matches(devices[idx[p]], adapterType);
    }
    r
  }

  /** Units 0 .. limit-1 are usable: two on an IDE controller, sixteen on a SCSI one. */
  function UnitLimit(adapterType: string): nat {
    if adapterType == IDE then IDE_UNIT_LIMIT
    else if IsScsiAdapterType(adapterType) then SCSI_UNIT_LIMIT
    else 0
  }

  /** Every usable unit of controller `k` is recorded as taken. */
  predicate Full(taken: Taken, k: int, limit: nat) {
    forall u :: 0 <= u < limit ==> u in UnitsOf(taken, k)
  }

  /** The inner loop of `_find_controller_slot`: the lowest unit in
      [from, limit) that is not in `used`. */
  function FirstFreeUnit(used: seq<int>, from: nat, limit: nat): (r: Option<nat>)
    ensures r.Some? ==> from <= r.value < limit && r.value !in used
    ensures r.Some? ==> forall u :: from <= u < r.value ==> u in used
    ensures r.None? <==> forall u :: from <= u < limit ==> u in used
    decreases limit - from
  {
    if from >= limit then None
    else if from !in used then Some(from)
    else FirstFreeUnit(used, from + 1, limit)
  }

  /** `_find_controller_slot`: first controller (in the given order) with a
      free unit, and its lowest free unit. */
  function FindControllerSlot(keys: seq<int>, taken: Taken, limit: nat): (r: Option<Slot>)
    ensures r.None? <==> forall i :: 0 <= i < |keys| ==> Full(taken, keys[i], limit)
    ensures r.Some? ==> exists i :: 0 <= i < |keys| && keys[i] == r.value.controllerKey
                          && forall j :: 0 <= j < i ==> Full(taken, keys[j], limit)
    ensures r.Some? ==> 0 <= r.value.unitNumber < limit && r.value.unitNumber !in UnitsOf(taken, r.value.controllerKey)
    ensures r.Some? ==> forall u :: 0 <= u < r.value.unitNumber ==> u in UnitsOf(taken, r.value.controllerKey)
    decreases |keys|
  {
    if keys == [] then None
    else match FirstFreeUnit(UnitsOf(taken, keys[0]), 0, limit)
      case Some(u) => Some(Slot(keys[0], u))
      case None =>
        var r := FindControllerSlot(keys[1..], taken, limit);
        assert forall i :: 0 < i < |keys| ==> keys[i] == keys[1..][i - 1];
        if r.Some? then
          var i :| 0 <= i < |keys[1..]| && keys[1..][i] == r.value.controllerKey
                   && forall j :: 0 <= j < i ==> Full(taken, keys[1..][j], limit);
          assert keys[i + 1] == r.value.controllerKey;
          assert forall j :: 0 <= j < i + 1 ==> Full(taken, keys[j], limit);
          r
        else r
  }

  /** First fit over the candidate keys is first fit in device-list order:
      when the controllers at the positions before `p` are full, so is every
      matching controller the device list holds before the one at `p`. */
  lemma FirstFitInDeviceOrder(devices: seq<Device>, adapterType: string, p: int)
    requires 0 <= p < |ControllerKeys(devices, adapterType)|
    requires forall q :: 0 <= q < p ==> ControllerFull(devices, ControllerKeys(devices, adapterType)[q], UnitLimit(adapterType))
    ensures exists i :: 0 <= i < |devices| && Matches(devices[i], adapterType) && devices[i].key == ControllerKeys(devices, adapterType)[p]
              && forall j :: 0 <= j < i && Matches(devices[j], adapterType) ==> ControllerFull(devices, devices[j].key, UnitLimit(adapterType))
  {
    var idx := MatchingIndices(devices, adapterType, 0);
    var keys := ControllerKeys(devices, adapterType);
    forall j | 0 <= j < idx[p] && Matches(devices[j], adapterType)
      ensures ControllerFull(devices, devices[j].key, UnitLimit(adapterType))
    {
      assert j in idx;
      var q :| 0 <= q < |idx| && idx[q] == j;
      assert keys[q] == devices[j].key;
    }
    assert Matches(devices[idx[p]], adapterType);
  }

  /** Every usable unit of controller `k` is occupied by some device. */
  ghost predicate ControllerFull(devices: seq<Device>, k: int, limit: nat) {
    forall u :: 0 <= u < limit ==> SlotOccupied(devices, k, u)
  }

  lemma FullIffControllerFull(devices: seq<Device>, k: int, limit: nat)
    ensures Full(Allocated(devices), k, limit) <==> ControllerFull(devices, k, limit)
  {
    forall u {
      AllocatedExact(devices, k, u);
    }
  }

  /** `allocate_controller_key_and_unit_number`: first fit over the
      matching controllers in device-list order, then over units in
      ascending order; when every matching controller is full, a new
      controller under the placeholder key, unit 0, and its spec. */
  function AllocateControllerKeyAndUnitNumber(devices: seq<Device>, adapterType: string): (r: Allocation)
    // an existing controller: one that matches the adapter type, with a free unit nobody occupies
    ensures r.controllerSpec.None? ==>
              && r.controllerKey in ControllerKeys(devices, adapterType)
              && 0 <= r.unitNumber < UnitLimit(adapterType)
              && !SlotOccupied(devices, r.controllerKey, r.unitNumber)
    // first fit over units
    ensures r.controllerSpec.None? ==>
              forall u :: 0 <= u < r.unitNumber ==> SlotOccupied(devices, r.controllerKey, u)
    // first fit over controllers
    ensures r.controllerSpec.None? ==>
              var keys := ControllerKeys(devices, adapterType);
              exists i :: 0 <= i < |keys| && keys[i] == r.controllerKey
                && forall j :: 0 <= j < i ==> ControllerFull(devices, keys[j], UnitLimit(adapterType))
    // a spec exactly when every matching controller is full
    ensures r.controllerSpec.Some? <==>
              forall k :: k in ControllerKeys(devices, adapterType) ==> ControllerFull(devices, k, UnitLimit(adapterType))
    ensures r.controllerSpec.Some? ==>
              && r.controllerKey == NEW_CONTROLLER_KEY && r.unitNumber == 0
              && r.controllerSpec.value == ControllerSpec(NEW_CONTROLLER_KEY, adapterType)
  {
    var taken := Allocated(devices);
    var keys := ControllerKeys(devices, adapterType);
    var limit := UnitLimit(adapterType);
    var found := FindControllerSlot(keys, taken, limit);
    forall k {
      FullIffControllerFull(devices, k, limit);
    }
    match found
    case Some(s) =>
      AllocatedExactOn(devices, s.controllerKey);
      Allocation(s.controllerKey, s.unitNumber, None)
    case None => Allocation(NEW_CONTROLLER_KEY, 0, Some(ControllerSpec(NEW_CONTROLLER_KEY, adapterType)))
  }

  /** The controller chosen is the first one in device-list order that has
      room: every matching controller the device list holds before it is full. */
  lemma AllocationFirstFitInDeviceOrder(devices: seq<Device>, adapterType: string)
    ensures var r := AllocateControllerKeyAndUnitNumber(devices, adapterType);
            r.controllerSpec.None? ==>
              exists i :: 0 <= i < |devices| && Matches(devices[i], adapterType) && devices[i].key == r.controllerKey
                && forall j :: 0 <= j < i && Matches(devices[j], adapterType) ==> ControllerFull(devices, devices[j].key, UnitLimit(adapterType))
  {
    var r := AllocateControllerKeyAndUnitNumber(devices, adapterType);
    if r.controllerSpec.None? {
      var keys := ControllerKeys(devices, adapterType);
      var p :| 0 <= p < |keys| && keys[p] == r.controllerKey
               && forall q :: 0 <= q < p ==> ControllerFull(devices, keys[q], UnitLimit(adapterType));
      FirstFitInDeviceOrder(devices, adapterType, p);
    }
  }

  /** The allocated slot never collides with an occupied one: on an
      existing controller by first fit, and on a new controller as long as
      no device already uses the placeholder key. */
  lemma AllocationNeverCollides(devices: seq<Device>, adapterType: string)
    requires forall i, u :: 0 <= i < |devices| ==> !Occupies(devices[i], NEW_CONTROLLER_KEY, u)
    ensures var r := AllocateControllerKeyAndUnitNumber(devices, adapterType);
            !SlotOccupied(devices, r.controllerKey, r.unitNumber)
  {
  }

  // ---------------------------------------------------------------------
  // Cases from the test suite
  // ---------------------------------------------------------------------

  function Disk(controllerKey: int, unitNumber: int): Device {
    Device(0, VirtualDisk(None), Some(Slot(controllerKey, unitNumber)))
  }

  function Ide(key: int): Device {
    Device(key, IdeController, None)
  }

  function LsiLogic(key: int, scsiCtlrUnitNumber: int): Device {
    Device(key, ScsiController(LsiLogicController, scsiCtlrUnitNumber), None)
  }

  /** One step of UnitsOn: the first device, then the rest. */
  lemma UnitsOnCons(d: Device, rest: seq<Device>, k: int)
    ensures UnitsOn([d] + rest, k) == DeviceUnits(d, k) + UnitsOn(rest, k)
  {
    assert ([d] + rest)[1..] == rest;
  }

  /** The units on controller `k` of the device list below, read off one
      device at a time. */
  lemma ScenarioUnits(k: int)
    ensures UnitsOn([Disk(200, 0), Disk(200, 1), Disk(201, 1), Ide(200), Ide(201), LsiLogic(1000, 7)], k)
            == DeviceUnits(Disk(200, 0), k) + DeviceUnits(Disk(200, 1), k) + DeviceUnits(Disk(201, 1), k)
               + DeviceUnits(LsiLogic(1000, 7), k)
  {
    var l5 := [LsiLogic(1000, 7)];
    var l4 := [Ide(201)] + l5;
    var l3 := [Ide(200)] + l4;
    var l2 := [Disk(201, 1)] + l3;
    var l1 := [Disk(200, 1)] + l2;
    var l0 := [Disk(200, 0)] + l1;
    UnitsOnCons(LsiLogic(1000, 7), [], k);
    UnitsOnCons(Ide(201), l5, k);
    UnitsOnCons(Ide(200), l4, k);
    UnitsOnCons(Disk(201, 1), l3, k);
    UnitsOnCons(Disk(200, 1), l2, k);
    UnitsOnCons(Disk(200, 0), l1, k);
    assert l0 == [Disk(200, 0), Disk(200, 1), Disk(201, 1), Ide(200), Ide(201), LsiLogic(1000, 7)];
  }

  /** Disks (200,0), (200,1), (201,1), IDE controllers 200 and 201, and an
      LSI Logic controller 1000 on its own unit 7. */
  method TestFindAllocatedSlots() returns (taken: Taken)
    ensures 200 in taken && 201 in taken && 1000 in taken
    ensures taken[200] == [0, 1] && taken[201] == [1] && taken[1000] == [7]
  {
    var devices := [Disk(200, 0), Disk(200, 1), Disk(201, 1), Ide(200), Ide(201), LsiLogic(1000, 7)];
    taken := FindAllocatedSlots(devices);
    ScenarioUnits(200);
    ScenarioUnits(201);
    ScenarioUnits(1000);
  }

  /** In a list whose only controllers are IDE 200 and 201 (plus disks),
      the IDE candidates are 200 and 201. */
  lemma IdePairKeys(devices: seq<Device>)
    requires forall i :: 0 <= i < |devices| ==> devices[i].cls.VirtualDisk? || devices[i] in [Ide(200), Ide(201)]
    ensures forall k :: k in ControllerKeys(devices, IDE) ==> k == 200 || k == 201
  {
  }

  /** With two candidate controllers, the first full and unit 0 of the
      second free, the disk goes on unit 0 of the second. */
  lemma SecondControllerFirstUnit(devices: seq<Device>, adapterType: string, k1: int, k2: int)
    requires ControllerKeys(devices, adapterType) == [k1, k2]
    requires ControllerFull(devices, k1, UnitLimit(adapterType))
    requires !SlotOccupied(devices, k2, 0)
    ensures AllocateControllerKeyAndUnitNumber(devices, adapterType) == Allocation(k2, 0, None)
  {
    var r := AllocateControllerKeyAndUnitNumber(devices, adapterType);
    assert !ControllerFull(devices, k2, UnitLimit(adapterType));
    assert r.controllerSpec.None?;
    assert r.controllerKey == k2;
  }

  /** The IDE candidates of the list below are 200 and 201, in that order. */
  lemma IdeDefaultKeys(devices: seq<Device>)
    requires devices == [Disk(200, 0), Disk(200, 1), Ide(200), Ide(201)]
    ensures ControllerKeys(devices, IDE) == [200, 201]
  {
    assert !IsScsiAdapterType(IDE);
    assert MatchingIndices(devices, IDE, 4) == [];
    assert MatchingIndices(devices, IDE, 3) == [3];
    assert MatchingIndices(devices, IDE, 2) == [2, 3];
    assert MatchingIndices(devices, IDE, 1) == [2, 3];
    assert MatchingIndices(devices, IDE, 0) == [2, 3];
  }

  /** IDE controller 200 is full, so the disk goes on 201, unit 0. */
  lemma TestAllocateIdeDefault()
    ensures AllocateControllerKeyAndUnitNumber([Disk(200, 0), Disk(200, 1), Ide(200), Ide(201)], IDE)
            == Allocation(201, 0, None)
  {
    var devices := [Disk(200, 0), Disk(200, 1), Ide(200), Ide(201)];
    IdeDefaultKeys(devices);
    assert Occupies(devices[0], 200, 0) && Occupies(devices[1], 200, 1);
    assert ControllerFull(devices, 200, UnitLimit(IDE));
    SecondControllerFirstUnit(devices, IDE, 200, 201);
  }

  /** Disks on units 0 .. count-1 of controller `k`. */
  function DisksOn(k: int, count: nat): seq<Device>
  {
    seq(count, j => Disk(k, j))
  }

  /** With units 0 and 1 of both IDE controllers taken, only a new
      controller is left. */
  lemma IdeControllersFull(devices: seq<Device>)
    requires devices == [Ide(200), Ide(201)] + DisksOn(200, 2) + DisksOn(201, 2)
    ensures AllocateControllerKeyAndUnitNumber(devices, IDE) == Allocation(-101, 0, Some(ControllerSpec(-101, IDE)))
  {
    IdePairKeys(devices);
    forall k, u | k in [200, 201] && 0 <= u < 2 ensures SlotOccupied(devices, k, u) {
      var i := 2 + (if k == 200 then 0 else 2) + u;
      assert Occupies(devices[i], k, u);
    }
  }

  /** Both default IDE controllers full (units 0 and 1 of 200 and 201, the
      disks appended in nested loops), so a new controller is requested. */
  method TestAllocateIdeNewController() returns (r: Allocation)
    ensures r == Allocation(-101, 0, Some(ControllerSpec(-101, IDE)))
  {
    var devices := [Ide(200), Ide(201)];
    var keys := [200, 201];
    for c := 0 to |keys|
      invariant devices == [Ide(200), Ide(201)] + (if c == 0 then [] else DisksOn(200, 2)) + (if c == 2 then DisksOn(201, 2) else [])
    {
      ghost var before := devices;
      for unitNumber := 0 to 2
        invariant devices == before + DisksOn(keys[c], unitNumber)
      {
        devices := devices + [Disk(keys[c], unitNumber)];
        assert DisksOn(keys[c], unitNumber + 1) == DisksOn(keys[c], unitNumber) + [Disk(keys[c], unitNumber)];
      }
    }
    r := AllocateControllerKeyAndUnitNumber(devices, IDE);
    IdeControllersFull(devices);
  }

  /** LSI Logic controller 1000 sits on its own unit 7 and disks take units
      0 .. 6 (appended in a loop), so the disk goes on unit 8 of 1000. */
  method TestAllocateScsi() returns (r: Allocation)
    ensures r == Allocation(1000, 8, None)
  {
    var devices := [LsiLogic(1000, 7)];
    for unitNumber := 0 to 7
      invariant devices == [LsiLogic(1000, 7)] + DisksOn(1000, unitNumber)
    {
      devices := devices + [Disk(1000, unitNumber)];
      assert DisksOn(1000, unitNumber + 1) == DisksOn(1000, unitNumber) + [Disk(1000, unitNumber)];
    }
    r := AllocateControllerKeyAndUnitNumber(devices, LSI_LOGIC);
    ScsiUnitsZeroToSevenTaken(devices);
  }

  /** Units 0 .. 7 of controller 1000 taken (7 by the controller itself),
      unit 8 free: the allocation is unit 8 of 1000. */
  lemma ScsiUnitsZeroToSevenTaken(devices: seq<Device>)
    requires devices == [LsiLogic(1000, 7)] + DisksOn(1000, 7)
    ensures AllocateControllerKeyAndUnitNumber(devices, LSI_LOGIC) == Allocation(1000, 8, None)
  {
    assert IsScsiController(devices[0]);
    assert forall k :: k in ControllerKeys(devices, LSI_LOGIC) <==> k == 1000;
    forall u | 0 <= u < 7 ensures SlotOccupied(devices, 1000, u) {
      assert Occupies(devices[u + 1], 1000, u);
    }
    assert Occupies(devices[0], 1000, 7);
    assert !SlotOccupied(devices, 1000, 8);
    assert !ControllerFull(devices, 1000, SCSI_UNIT_LIMIT);
  }
}
