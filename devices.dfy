/**
 * The slice of the hypervisor's virtual-hardware object model that the
 * slot allocator and the disk lookup inspect: every device has a key, a
 * class, and (for devices that sit on a controller's bus) a controller key
 * and a unit number.
 */
module Devices {
  import opened Common

  /** The adapter-type strings the driver uses for disk controllers. */
  const IDE: string := "ide"
  const LSI_LOGIC: string := "lsiLogic"
  const LSI_LOGIC_SAS: string := "lsiLogicsas"
  const BUS_LOGIC: string := "busLogic"
  const PARA_VIRTUAL: string := "paraVirtual"

  /** The SCSI-family controller classes. */
  datatype ScsiKind =
    | LsiLogicController       // VirtualLsiLogicController
    | LsiLogicSasController    // VirtualLsiLogicSASController
    | BusLogicController       // VirtualBusLogicController
    | ParaVirtualController    // ParaVirtualSCSIController

  /** A (controller key, unit number) position on a controller's bus. */
  datatype Slot = Slot(controllerKey: int, unitNumber: int)

  /** The device classes the core tells apart; every other class is `OtherDevice`. */
  datatype DeviceClass =
      /** `flatFileName` is the backing's fileName when the backing is a
          VirtualDiskFlatVer2BackingInfo, and None for any other backing. */
    | VirtualDisk(flatFileName: Option<string>)
    | IdeController
      /** A SCSI controller also occupies a unit of its own bus. */
    | ScsiController(kind: ScsiKind, scsiCtlrUnitNumber: int)
    | OtherDevice

  /** `attachment` is Some exactly when the device carries both a
      controllerKey and a unitNumber attribute. */
  datatype Device = Device(key: int, cls: DeviceClass, attachment: Option<Slot>)

  predicate IsIdeController(d: Device) {
    d.cls.IdeController?
  }

  predicate IsScsiController(d: Device) {
    d.cls.ScsiController?
  }

  /** The adapter type a SCSI controller class stands for. */
  function ScsiAdapterType(k: ScsiKind): (r: string)
    ensures r in {LSI_LOGIC, LSI_LOGIC_SAS, BUS_LOGIC, PARA_VIRTUAL}
    ensures k == LsiLogicSasController <==> r == LSI_LOGIC_SAS
  {
    match k
    case LsiLogicController => LSI_LOGIC
    case LsiLogicSasController => LSI_LOGIC_SAS
    case BusLogicController => BUS_LOGIC
    case ParaVirtualController => PARA_VIRTUAL
  }

  /** The adapter type implied by a controller device; None for every other device. */
  function ControllerAdapterType(d: Device): Option<string> {
    match d.cls
    case IdeController => Some(IDE)
    case ScsiController(k, _) => Some(ScsiAdapterType(k))
    case _ => None
  }

  /** Distinct SCSI controller classes stand for distinct adapter types. */
  lemma ScsiAdapterTypeInjective(a: ScsiKind, b: ScsiKind)
    ensures ScsiAdapterType(a) == ScsiAdapterType(b) ==> a == b
  {
  }
}
