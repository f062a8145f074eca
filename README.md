# VMware VM utilities: slot allocation, disk lookup, property projection, console ports

This project models, in Dafny, the self-contained algorithms of the VMware
driver's VM utility module (`nova/virt/vmwareapi/vm_util.py`) as its test
suite `nova/tests/virt/vmwareapi/test_vm_util.py` pins them down, and proves
properties of the model:

- **Disk-slot bookkeeping** (`slot_allocator.dfy`): `_find_allocated_slots`
  accumulates, per controller key, the unit numbers the devices occupy. A
  SCSI controller's own `scsiCtlrUnitNumber` counts as occupied on its own
  key. `allocate_controller_key_and_unit_number` picks the first matching
  controller with room and its lowest free unit. When every matching
  controller is full, it requests a new controller under the placeholder
  key -101, unit 0, together with a controller spec.
- **Adapter type and disk lookup** (`vmdk_info.dfy`):
  - `get_vmdk_adapter_type` writes "lsiLogicsas" as "lsiLogic" in the vmdk
    descriptor and passes any other value through.
  - `get_vmdk_path_and_adapter_type` scans the device list. It reports the
    backing file of the flat disk matching an optional uuid, and the adapter
    type of the controller under the last flat disk's controller key, which
    need not be the disk that matched.
- **Property-set projection** (`property_projector.dfy`):
  - `propset_dict` turns an ordered list of (name, val) entries into a
    dictionary.
  - `property_from_property_set` returns the first entry with a given name
    across the objects of a query result, or None.
- **VNC console ports** (`port_allocator.dfy`): `get_vnc_port` returns the
  lowest port of `[vnc_port, vnc_port + vnc_port_total)` that no VM records.
  It returns ConsolePortRangeExhausted when every port in the range is
  recorded.
- **VIF model names** (`vif_model.dfy`): `convert_vif_model`.
- **Cluster statistics** (`cluster_stats.dfy`): the aggregation done by
  `get_stats_from_cluster`. CPU figures are summed over the hosts that are
  connected and not in maintenance mode. Memory figures come from the
  resource pool, converted from bytes to MiB.

Shared types are in `common.dfy` (Option, Result) and `devices.dfy` (the
virtual-device records: disks with their flat backing file name, IDE
controllers, the four SCSI controller classes, other devices).

The behaviour is read off the assertions of the test file. The
implementation file itself is not part of this model. Where the assertions
leave a detail open, the model follows the implementation's behaviour:

- Matching controllers are searched in device-list order, not in key order.
- Any SCSI adapter type (lsiLogic, lsiLogicsas, busLogic, paraVirtual) may go
  on any SCSI controller.
- An adapter type that is neither "ide" nor a SCSI type matches no existing
  controller. It therefore yields a new controller (-101, unit 0, spec)
  rather than an error.
- Capacity is 2 units on an IDE controller and 16 on a SCSI controller. Unit
  7 of a SCSI bus is skipped only because the controller itself occupies it.
- `propset_dict` behaves like `dict(...)`: with repeated names, the last
  entry wins.
- `get_vmdk_path_and_adapter_type` revisits every flat disk:
  - the path comes from the last disk that matches the uuid;
  - the controller key comes from the last flat disk, matching or not;
  - the adapter type is "" when that key has no recognised controller.

The scenarios of the test file are stated as `Test…` members with exact
results. The lists the tests build by appending in loops are built the same
way there.

## Model

| member | source | states |
|---|---|---|
| SlotAllocator.FindAllocatedSlots | nova/tests/virt/vmwareapi/test_vm_util.py:352-363 | The accumulated map lists a unit under a controller key exactly when some device occupies that slot: attached there, or a SCSI controller on its own unit. A key is present exactly when something occupies it, and its list is the occupied units in device order. The loop keeps the map equal to the fold over the devices seen so far. |
| SlotAllocator.AllocatedIsUnitsOn | nova/tests/virt/vmwareapi/test_vm_util.py:352-363 | The left-to-right accumulation equals the per-controller reference list, device by device. No key is ever recorded with an empty list. |
| SlotAllocator.UnitsOnMembers | nova/tests/virt/vmwareapi/test_vm_util.py:352-363 | A unit appears in a controller's reference list iff some device occupies that slot. |
| SlotAllocator.AllocatedExact | nova/tests/virt/vmwareapi/test_vm_util.py:352-363 | A unit is recorded under a key iff it is occupied, and a key is present iff some unit on it is occupied. |
| SlotAllocator.AllocatedExactOn | nova/tests/virt/vmwareapi/test_vm_util.py:352-363 | The same exactness for every unit of one controller at once. |
| SlotAllocator.TestFindAllocatedSlots | nova/tests/virt/vmwareapi/test_vm_util.py:352-363 | Disks (200,0), (200,1), (201,1), IDE 200 and 201, and LSI Logic 1000 on unit 7 give 200→[0,1], 201→[1], 1000→[7]. |
| SlotAllocator.MatchingIndices | nova/tests/virt/vmwareapi/test_vm_util.py:365-417 | The positions of the controllers a disk of the adapter type may go on, strictly increasing, covering exactly the matching controllers of the device list. |
| SlotAllocator.ControllerKeys | nova/tests/virt/vmwareapi/test_vm_util.py:365-417 | The candidate keys are the keys of the IDE controllers for "ide", and of every SCSI-family controller for a SCSI adapter type, in device-list order: position p holds the key of the p-th matching device. There are none for any other type. |
| SlotAllocator.FirstFreeUnit | nova/tests/virt/vmwareapi/test_vm_util.py:402-417 | The unit found is the lowest unit of [from, limit) not taken. None means every unit of the range is taken. |
| SlotAllocator.FindControllerSlot | nova/tests/virt/vmwareapi/test_vm_util.py:365-417 | First fit: the slot is on the first candidate controller that is not full, at its lowest free unit. None means every candidate is full. |
| SlotAllocator.FullIffControllerFull | nova/tests/virt/vmwareapi/test_vm_util.py:382-400 | A controller is full in the accumulated map iff every usable unit of it is occupied by some device. |
| SlotAllocator.AllocateControllerKeyAndUnitNumber | nova/tests/virt/vmwareapi/test_vm_util.py:365-417 | Without a spec, the slot is on a matching controller, below its capacity, and unoccupied. Every lower unit of that controller is occupied, and every matching controller before it is full. A spec is returned iff every matching controller is full, and then the result is (-101, 0, spec for the adapter type). |
| SlotAllocator.FirstFitInDeviceOrder | nova/tests/virt/vmwareapi/test_vm_util.py:365-417 | When the candidate keys before position p are all full, every matching controller that the device list holds before the one at position p is full. |
| SlotAllocator.AllocationFirstFitInDeviceOrder | nova/tests/virt/vmwareapi/test_vm_util.py:365-417 | The controller chosen without a spec is a matching device of the list, and every matching controller before it in the device list is full. |
| SlotAllocator.AllocationNeverCollides | nova/tests/virt/vmwareapi/test_vm_util.py:365-417 | The allocated slot is never already occupied, provided no device uses the placeholder key -101. |
| SlotAllocator.SecondControllerFirstUnit | nova/tests/virt/vmwareapi/test_vm_util.py:365-380 | With exactly two candidate controllers, the first full and unit 0 of the second free, the disk goes on unit 0 of the second, with no spec. |
| SlotAllocator.TestAllocateIdeDefault | nova/tests/virt/vmwareapi/test_vm_util.py:365-380 | IDE 200 full and 201 empty: (201, 0, no spec). |
| SlotAllocator.IdeControllersFull | nova/tests/virt/vmwareapi/test_vm_util.py:382-400 | Units 0 and 1 taken on both IDE controllers: (-101, 0, spec). |
| SlotAllocator.TestAllocateIdeNewController | nova/tests/virt/vmwareapi/test_vm_util.py:382-400 | The same, with the disks appended in the test's nested loops. |
| SlotAllocator.ScsiUnitsZeroToSevenTaken | nova/tests/virt/vmwareapi/test_vm_util.py:402-417 | LSI Logic 1000 on unit 7 with disks on 0..6: (1000, 8, no spec). |
| SlotAllocator.TestAllocateScsi | nova/tests/virt/vmwareapi/test_vm_util.py:402-417 | The same, with the disks appended in the test's loop. |
| Devices.ScsiAdapterType | nova/tests/virt/vmwareapi/test_vm_util.py:289-302 | Each SCSI controller class stands for one of the four SCSI adapter type names, and the LSI Logic SAS controller, and only it, stands for "lsiLogicsas". |
| Devices.ScsiAdapterTypeInjective | nova/tests/virt/vmwareapi/test_vm_util.py:289-302 | Distinct SCSI controller classes stand for distinct adapter types. |
| VmdkInfo.GetVmdkAdapterType | nova/tests/virt/vmwareapi/test_vm_util.py:342-350 | The result is never "lsiLogicsas". It is the input itself, except that "lsiLogicsas" becomes "lsiLogic". |
| VmdkInfo.VmdkAdapterTypeIdempotent | nova/tests/virt/vmwareapi/test_vm_util.py:342-350 | Normalising twice is normalising once. |
| VmdkInfo.VmdkAdapterTypeSameDescriptor | nova/tests/virt/vmwareapi/test_vm_util.py:342-350 | Two adapter types give the same descriptor type iff they are equal or are lsiLogic and lsiLogicsas. |
| VmdkInfo.TestGetVmdkAdapterType | nova/tests/virt/vmwareapi/test_vm_util.py:342-350 | "lsiLogic" → "lsiLogic", "lsiLogicsas" → "lsiLogic", "dummyAdapter" → "dummyAdapter". |
| VmdkInfo.LastMatch | nova/tests/virt/vmwareapi/test_vm_util.py:316-340 | The index found matches the uuid and no later device does. None means no device matches. |
| VmdkInfo.LastControllerAdapter | nova/tests/virt/vmwareapi/test_vm_util.py:316-340 | The adapter type is that of a recognised controller with the key, after which no other controller has that key. None means there is no such controller. |
| VmdkInfo.ScanPath | nova/tests/virt/vmwareapi/test_vm_util.py:316-340 | The scan's path is the file name of the last disk matching the uuid, or None. |
| VmdkInfo.ScanDiskKey | nova/tests/virt/vmwareapi/test_vm_util.py:316-340 | The scan's controller key is that of the last flat disk, whether or not it matches. |
| VmdkInfo.ScanAdapterTypes | nova/tests/virt/vmwareapi/test_vm_util.py:316-340 | The scan records a key iff a recognised controller has it, and records the adapter type of the last such controller. |
| VmdkInfo.GetVmdkPathAndAdapterType | nova/tests/virt/vmwareapi/test_vm_util.py:316-340 | A path is reported iff some flat disk matches the uuid, and it is the last matching disk's file name. The adapter type is that of the controller under the last disk's controller key, or "". |
| VmdkInfo.TestGetVmdkPathAndAdapterType | nova/tests/virt/vmwareapi/test_vm_util.py:316-322 | With no uuid, a disk on an LSI SAS controller gives its file name and "lsiLogicsas". |
| VmdkInfo.TestGetVmdkPathAndAdapterTypeWithMatch | nova/tests/virt/vmwareapi/test_vm_util.py:324-331 | The uuid "uuid" inside the file name: the file name and "lsiLogicsas". |
| VmdkInfo.NoUuidInDiuuPath | nova/tests/virt/vmwareapi/test_vm_util.py:333-340 | "uuid" occurs at no position of "[test_datastore] diuu/diuu.vmdk". |
| VmdkInfo.TestGetVmdkPathAndAdapterTypeWithNoMatch | nova/tests/virt/vmwareapi/test_vm_util.py:333-340 | The uuid is absent from the file name: no path, but the adapter type is still "lsiLogicsas". |
| PropertyProjector.PropsetDict | nova/tests/virt/vmwareapi/test_vm_util.py:485-509 | The dictionary's keys are exactly the entry names, dotted names included. |
| PropertyProjector.PropsetDictLastWins | nova/tests/virt/vmwareapi/test_vm_util.py:485-509 | Under each name the dictionary holds the val of the last entry with that name, unchanged. |
| PropertyProjector.PropsetDictOfDistinctNames | nova/tests/virt/vmwareapi/test_vm_util.py:485-509 | With distinct names, every entry's val is found under its name. |
| PropertyProjector.PropsetDictAgreesWithLookup | nova/tests/virt/vmwareapi/test_vm_util.py:485-509 | With distinct names, the dictionary and the first-match lookup agree on presence and on value. |
| PropertyProjector.TestPropsetDictSimple | nova/tests/virt/vmwareapi/test_vm_util.py:485-492 | [foo→"bar"] gives foo → "bar". |
| PropertyProjector.TestPropsetDictComplex | nova/tests/virt/vmwareapi/test_vm_util.py:494-509 | A string, a structured value and a dotted name map through unchanged. |
| PropertyProjector.PropertyFromPropSet | nova/tests/virt/vmwareapi/test_vm_util.py:169-221 | Within one propSet the entry returned is the first with the name. None means no entry has it. |
| PropertyProjector.PropertyFromPropertySet | nova/tests/virt/vmwareapi/test_vm_util.py:169-221 | None iff no entry of any object has the name. Otherwise the raw entry carries the name, and it comes from the first object that has one, at that object's first matching entry. |
| PropertyProjector.PropertyFromPropertySetIsFirstOverall | nova/tests/virt/vmwareapi/test_vm_util.py:169-221 | Searching object by object equals searching the concatenation of all propSets for its first match. |
| PropertyProjector.TestPropertyFromPropertySet | nova/tests/virt/vmwareapi/test_vm_util.py:204-212 | 'runtime.host' gives host-123 in the good result and None in the bad one. |
| PropertyProjector.TestPropertyFromPropertySetFirstMatch | nova/tests/virt/vmwareapi/test_vm_util.py:214-221 | 'foo' gives bar1, not bar2, in both results. |
| PortAllocator.GetAllocatedVncPorts | nova/tests/virt/vmwareapi/test_vm_util.py:439-463 | The collected set is exactly the ports some VM records. |
| PortAllocator.GetVncPort | nova/tests/virt/vmwareapi/test_vm_util.py:449-463 | A port is in range and unused, and every lower port of the range is used. ConsolePortRangeExhausted(vnc_port, vnc_port + total) is returned iff every port of the range is used. |
| PortAllocator.CreateFakeVms | nova/tests/virt/vmwareapi/test_vm_util.py:439-447 | Ten VMs recording 5900..5909, appended in a loop. |
| PortAllocator.FakeVmsPorts | nova/tests/virt/vmwareapi/test_vm_util.py:439-447 | Those VMs use exactly the ports 5900..5909. |
| PortAllocator.TestGetVncPort | nova/tests/virt/vmwareapi/test_vm_util.py:449-455 | The range from 5900 of size 10000 gives 5910. |
| PortAllocator.TestGetVncPortExhausted | nova/tests/virt/vmwareapi/test_vm_util.py:457-463 | The range from 5900 of size 10 is exhausted. |
| VifModel.ConvertVifModel | nova/tests/virt/vmwareapi/test_vm_util.py:744-758 | Success iff the name is e1000, e1000e or a supported VMware device name. A result is always a supported device name, and equals the input except for the two generic names. Anything else gives Invalid(name). |
| VifModel.ConvertVifModelIdempotent | nova/tests/virt/vmwareapi/test_vm_util.py:744-758 | A converted name converts to itself. |
| VifModel.TestConvertVifModel | nova/tests/virt/vmwareapi/test_vm_util.py:744-758 | e1000 → VirtualE1000 and e1000e → VirtualE1000e. The four VMware names pass through, and "InvalidVifModel" is Invalid. |
| ClusterStats.ActiveIndices | nova/tests/virt/vmwareapi/test_vm_util.py:48-125 | The positions of the hosts that count: strictly increasing, and covering exactly the hosts that are connected and not in maintenance mode. |
| ClusterStats.ActiveHostsInOrder | nova/tests/virt/vmwareapi/test_vm_util.py:48-125 | The counted hosts are, entry by entry, the hosts at those positions: host order is kept and a repeated host is kept each time. |
| ClusterStats.ActiveHostsCount | nova/tests/virt/vmwareapi/test_vm_util.py:48-125 | Each host that counts is kept as often as it occurs in the input, and no other host is kept. |
| ClusterStats.CpuListsFollowActiveHosts | nova/tests/virt/vmwareapi/test_vm_util.py:48-125 | The vendor and model lists hold one entry per counted host, in host order: entry j is the vendor (model) of the host at the j-th counted position. |
| ClusterStats.ActiveHostsMeaning | nova/tests/virt/vmwareapi/test_vm_util.py:48-125 | The counted hosts are exactly those connected and not in maintenance mode, and are all hosts when every host qualifies. |
| ClusterStats.MemoryInfo | nova/tests/virt/vmwareapi/test_vm_util.py:85-114 | The total is the pool's limit in whole MiB, rounded down. Free is the total less the usage in whole MiB. Both are 0 without a pool usage. |
| ClusterStats.FreeMemoryBounded | nova/tests/virt/vmwareapi/test_vm_util.py:85-114 | When usage does not exceed the limit, 0 ≤ free ≤ total. |
| ClusterStats.GetStatsFromCluster | nova/tests/virt/vmwareapi/test_vm_util.py:48-125 | The loop sums threads into vcpus and cores into cores, and lists vendor and model, over exactly the counted hosts. Memory is as above. |
| ClusterStats.XeonPair | nova/tests/virt/vmwareapi/test_vm_util.py:58-77 | Two 8-core, 16-thread hosts: both count when the second qualifies, else only the first. |
| ClusterStats.TestGetStatsFromCluster | nova/tests/virt/vmwareapi/test_vm_util.py:48-125 | With the second host connected and active: 32 vcpus, 16 cores and two vendor/model entries; otherwise 16, 8 and one. Memory is 5120 total and 3072 free. |

## Left out

- Session and RPC plumbing is not modelled: the property-collector calls, result pagination and cancellation. The VMs of `get_vnc_port` are given as one sequence, already concatenated over pages. The hosts and resource-pool usage of `get_stats_from_cluster` are given as inputs.
- Configuration flags become parameters: `vnc_port`, `vnc_port_total`.
- The config-spec builders and their opaque client factory are not modelled (resize, cdrom, VNC, VM create, network attach and detach, disk detach). `create_controller_spec` is modelled only by the arguments it is called with: the placeholder key and the adapter type. The controller device it builds is not modelled.
- Not modelled: host, cluster and VM-reference lookups, the VM-reference cache, power on and off, `create_vm`, `reconfigure_vm`, virtual-disk creation and copy, and `get_vmdk_path` through a session. These are remote-object retrieval and task waits with no algorithmic content.
- A flat disk without a controller key is modelled as reporting adapter type "". The tests do not exercise that case.
- SlotAllocator.AllocateControllerKeyAndUnitNumber: repeated new controllers all use -101. Whether later ones count down from -101 is not asserted and not modelled.
- SlotAllocator.UnitLimit: the SCSI capacity 16 is the implementation's value. The tests fix only that unit 8 is usable. All contracts are stated in terms of UnitLimit.
- VifModel.ConvertVifModel: the supported names passed through are the four the tests list. Any further device class the implementation may accept is not modelled.
- ClusterStats.GetStatsFromCluster: the pool usage arrives as non-negative byte counts. Python's truncating `int(x / Mi)` and Dafny's floor division agree on them.
