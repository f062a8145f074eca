/**
 * Conversion of a VIF model name to the VMware network-device class name.
 */
module VifModel {
  import opened Common

  /** The generic model names of the network model layer. */
  const VIF_MODEL_E1000: string := "e1000"
  const VIF_MODEL_E1000E: string := "e1000e"

  /** The VMware network-device names that pass through unchanged. */
  const SUPPORTED_NETWORK_DEVICES: seq<string> := ["VirtualE1000", "VirtualE1000e", "VirtualPCNet32", "VirtualVmxnet"]

  /** The `Invalid` exception, raised for a name that is not supported. */
  datatype VifError = Invalid(name: string)

  /** `convert_vif_model`: the two generic E1000 names map to their VMware
      device names, a supported VMware device name is returned as it is,
      and any other name raises Invalid. */
  function ConvertVifModel(name: string): (r: Result<string, VifError>)
    ensures r.Ok? <==> name in {VIF_MODEL_E1000, VIF_MODEL_E1000E} || name in SUPPORTED_NETWORK_DEVICES
    ensures r.Ok? ==> r.value in SUPPORTED_NETWORK_DEVICES
    ensures r.Ok? && name !in {VIF_MODEL_E1000, VIF_MODEL_E1000E} ==> r.value == name
    ensures r.Err? ==> r.error == Invalid(name)
  {
    if name == VIF_MODEL_E1000 then Ok("VirtualE1000")
    else if name == VIF_MODEL_E1000E then Ok("VirtualE1000e")
    else if name !in SUPPORTED_NETWORK_DEVICES then Err(Invalid(name))
    else Ok(name)
  }

  /** A converted name converts to itself. */
  lemma ConvertVifModelIdempotent(name: string)
    requires ConvertVifModel(name).Ok?
    ensures ConvertVifModel(ConvertVifModel(name).value) == ConvertVifModel(name)
  {
  }

  lemma TestConvertVifModel()
    ensures ConvertVifModel(VIF_MODEL_E1000) == Ok("VirtualE1000")
    ensures ConvertVifModel(VIF_MODEL_E1000E) == Ok("VirtualE1000e")
    ensures forall t :: t in ["VirtualE1000", "VirtualE1000e", "VirtualPCNet32", "VirtualVmxnet"] ==> ConvertVifModel(t) == Ok(t)
    ensures ConvertVifModel("InvalidVifModel") == Err(Invalid("InvalidVifModel"))
  {
  }
}
