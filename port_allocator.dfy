/**
 * VNC console-port allocation: the ports recorded in the VNC-port
 * extra-config entry of every VM the query returns are in use; a new
 * console gets the lowest port of the configured range that is not.
 */
module PortAllocator {
  import opened Common

  /** One VM object of the query for the VNC-port extra-config key: the
      port held by the option value of its first property, or None when
      the object carries no propSet (such objects are skipped). */
  datatype VmRecord = VmRecord(vncPort: Option<int>)

  datatype ConsoleError = ConsolePortRangeExhausted(minPort: int, maxPort: int)

  /** Some VM records port `p`; liveness of the VM plays no part. */
  ghost predicate PortInUse(vms: seq<VmRecord>, p: int) {
    exists i :: 0 <= i < |vms| && vms[i].vncPort == Some(p)
  }

  /** `_get_allocated_vnc_ports`: the set of recorded ports, the pages of
      the query result already concatenated into `vms`. */
  method GetAllocatedVncPorts(vms: seq<VmRecord>) returns (ports: set<int>)
    ensures forall p :: p in ports <==> PortInUse(vms, p)
  {
    ports := {};
    for i := 0 to |vms|
      invariant forall p :: p in ports <==> PortInUse(vms[..i], p)
    {
      if vms[i].vncPort.Some? {
        ports := ports + {vms[i].vncPort.value};
      }
      forall p ensures PortInUse(vms[..i + 1], p) <==> PortInUse(vms[..i], p) || vms[i].vncPort == Some(p) {
        if PortInUse(vms[..i + 1], p) && vms[i].vncPort != Some(p) {
          var j :| 0 <= j < i + 1 && vms[..i + 1][j].vncPort == Some(p);
          assert vms[..i][j] == vms[j];
        }
        if PortInUse(vms[..i], p) {
          var j :| 0 <= j < i && vms[..i][j].vncPort == Some(p);
          assert vms[..i + 1][j] == vms[j];
        }
        if vms[i].vncPort == Some(p) {
          assert vms[..i + 1][i] == vms[i];
        }
      }
    }
    assert vms[..|vms|] == vms;
  }

  /** `get_vnc_port`: the lowest port in [vncPort, vncPort + vncPortTotal)
      that no VM records, or ConsolePortRangeExhausted when every port of
      the range is recorded (an empty range is exhausted at once). */
  method GetVncPort(vms: seq<VmRecord>, vncPort: int, vncPortTotal: int) returns (r: Result<int, ConsoleError>)
    ensures r.Ok? ==> vncPort <= r.value < vncPort + vncPortTotal && !PortInUse(vms, r.value)
    ensures r.Ok? ==> forall q :: vncPort <= q < r.value ==> PortInUse(vms, q)
    ensures r.Err? <==> forall q :: vncPort <= q < vncPort + vncPortTotal ==> PortInUse(vms, q)
    ensures r.Err? ==> r.error == ConsolePortRangeExhausted(vncPort, vncPort + vncPortTotal)
  {
    var allocatedPorts := GetAllocatedVncPorts(vms);
    var maxPort := vncPort + vncPortTotal;
    var port := vncPort;
    while port < maxPort
      invariant vncPort <= port
      invariant port <= maxPort || port == vncPort
      invariant forall q :: vncPort <= q < port ==> PortInUse(vms, q)
    {
      if port !in allocatedPorts {
        return Ok(port);
      }
      port := port + 1;
    }
    return Err(ConsolePortRangeExhausted(vncPort, maxPort));
  }

  // ---------------------------------------------------------------------
  // Cases from the test suite
  // ---------------------------------------------------------------------

  /** Ten VMs recording ports 5900 .. 5909, appended in a loop. */
  method CreateFakeVms() returns (vms: seq<VmRecord>)
    ensures |vms| == 10 && forall i :: 0 <= i < 10 ==> vms[i] == VmRecord(Some(5900 + i))
  {
    vms := [];
    for i := 0 to 10
      invariant |vms| == i && forall j :: 0 <= j < i ==> vms[j] == VmRecord(Some(5900 + j))
    {
      vms := vms + [VmRecord(Some(5900 + i))];
    }
  }

  lemma FakeVmsPorts(vms: seq<VmRecord>, p: int)
    requires |vms| == 10 && forall i :: 0 <= i < 10 ==> vms[i] == VmRecord(Some(5900 + i))
    ensures PortInUse(vms, p) <==> 5900 <= p < 5910
  {
    if 5900 <= p < 5910 {
      assert vms[p - 5900].vncPort == Some(p);
    }
  }

  /** Range 5900 .. 15899: the first free port is 5910. */
  method TestGetVncPort() returns (r: Result<int, ConsoleError>)
    ensures r == Ok(5910)
  {
    var vms := CreateFakeVms();
    r := GetVncPort(vms, 5900, 10000);
    FakeVmsPorts(vms, 5910);
    if r.Ok? {
      FakeVmsPorts(vms, r.value);
      if r.value > 5910 {
        FakeVmsPorts(vms, 5910);
      }
    }
  }

  /** Range 5900 .. 5909: every port is taken. */
  method TestGetVncPortExhausted() returns (r: Result<int, ConsoleError>)
    ensures r == Err(ConsolePortRangeExhausted(5900, 5910))
  {
    var vms := CreateFakeVms();
    r := GetVncPort(vms, 5900, 10);
    forall q | 5900 <= q < 5910 ensures PortInUse(vms, q) {
      FakeVmsPorts(vms, q);
    }
  }
}
