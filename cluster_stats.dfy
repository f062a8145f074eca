/**
 * Aggregate CPU and memory figures of a cluster: CPU figures summed over
 * the hosts that are connected and not in maintenance mode, memory figures
 * taken from the resource pool's usage and converted from bytes to MiB.
 */
module ClusterStats {
  import opened Common

  /** Bytes per MiB. */
  const MI: nat := 1048576

  datatype HardwareSummary = HardwareSummary(numCpuCores: nat, numCpuThreads: nat, vendor: string, cpuModel: string)
  datatype RuntimeSummary = RuntimeSummary(connectionState: string, inMaintenanceMode: bool)

  /** One host's (hardware summary, runtime summary) property pair. */
  datatype HostSummary = HostSummary(hardware: HardwareSummary, runtime: RuntimeSummary)

  /** The resource pool's memory usage, in bytes. */
  datatype MemoryUsage = MemoryUsage(maxUsage: nat, overallUsage: nat)

  datatype CpuInfo = CpuInfo(vcpus: nat, cores: nat, vendor: seq<string>, model: seq<string>)
  datatype MemInfo = MemInfo(total: int, free: int)
  datatype Stats = Stats(cpu: CpuInfo, mem: MemInfo)

  /** A host whose CPUs count: connected and not in maintenance mode. */
  predicate IsActive(h: HostSummary) {
    !h.runtime.inMaintenanceMode && h.runtime.connectionState == "connected"
  }

  /** The hosts that count, in order. */
  function ActiveHosts(hosts: seq<HostSummary>): seq<HostSummary>
    decreases |hosts|
  {
    if hosts == [] then []
    else
      var n := |hosts| - 1;
      ActiveHosts(hosts[..n]) + (if IsActive(hosts[n]) then [hosts[n]] else [])
  }

  /** ActiveHosts keeps exactly the hosts that count, and drops nothing when
      every host counts. */
  lemma {:induction false} ActiveHostsMeaning(hosts: seq<HostSummary>)
    ensures forall h :: h in ActiveHosts(hosts) <==> h in hosts && IsActive(h)
    ensures (forall i :: 0 <= i < |hosts| ==> IsActive(hosts[i])) ==> ActiveHosts(hosts) == hosts
    decreases |hosts|
  {
    if hosts != [] {
      var n := |hosts| - 1;
      ActiveHostsMeaning(hosts[..n]);
      assert hosts == hosts[..n] + [hosts[n]];
    }
  }

  /** Positions of the hosts that count: strictly increasing, and covering
      exactly the hosts that count. */
  function ActiveIndices(hosts: seq<HostSummary>): (r: seq<nat>)
    ensures forall j :: 0 <= j < |r| ==> r[j] < |hosts|
    ensures forall a, b :: 0 <= a < b < |r| ==> r[a] < r[b]
    ensures forall i :: 0 <= i < |hosts| ==> (i in r <==> IsActive(hosts[i]))
    decreases |hosts|
  {
    if hosts == [] then []
    else
      var n := |hosts| - 1;
      var rest := ActiveIndices(hosts[..n]);
      assert forall i :: 0 <= i < n ==> hosts[..n][i] == hosts[i];
      rest + (if IsActive(hosts[n]) then [n] else [])
  }

  /** ActiveHosts keeps host order: entry j is the host at the j-th of the
      positions that count. */
  lemma {:induction false} ActiveHostsInOrder(hosts: seq<HostSummary>)
    ensures |ActiveHosts(hosts)| == |ActiveIndices(hosts)|
    ensures forall j :: 0 <= j < |ActiveIndices(hosts)| ==> ActiveHosts(hosts)[j] == hosts[ActiveIndices(hosts)[j]]
    decreases |hosts|
  {
    if hosts != [] {
      var n := |hosts| - 1;
      ActiveHostsInOrder(hosts[..n]);
      var prev, idx := ActiveHosts(hosts[..n]), ActiveIndices(hosts[..n]);
      var cur, cidx := ActiveHosts(hosts), ActiveIndices(hosts);
      assert cur == prev + (if IsActive(hosts[n]) then [hosts[n]] else []);
      assert cidx == idx + (if IsActive(hosts[n]) then [n] else []);
      forall j | 0 <= j < |cidx| ensures cur[j] == hosts[cidx[j]] {
        if j < |idx| {
          assert cur[j] == prev[j] == hosts[..n][idx[j]];
        }
      }
    }
  }

  /** ActiveHosts keeps each host that counts as often as it occurs, and no
      other host. */
  lemma {:induction false} ActiveHostsCount(hosts: seq<HostSummary>)
    ensures forall h :: multiset(ActiveHosts(hosts))[h] == if IsActive(h) then multiset(hosts)[h] else 0
    decreases |hosts|
  {
    if hosts != [] {
      var n := |hosts| - 1;
      ActiveHostsCount(hosts[..n]);
      assert hosts == hosts[..n] + [hosts[n]];
      assert multiset(hosts) == multiset(hosts[..n]) + multiset{hosts[n]};
    }
  }

  function SumThreads(hosts: seq<HostSummary>): nat
    decreases |hosts|
  {
    if hosts == [] then 0 else SumThreads(hosts[..|hosts| - 1]) + hosts[|hosts| - 1].hardware.numCpuThreads
  }

  function SumCores(hosts: seq<HostSummary>): nat
    decreases |hosts|
  {
    if hosts == [] then 0 else SumCores(hosts[..|hosts| - 1]) + hosts[|hosts| - 1].hardware.numCpuCores
  }

  function Vendors(hosts: seq<HostSummary>): seq<string>
  {
    seq(|hosts|, i requires 0 <= i < |hosts| => hosts[i].hardware.vendor)
  }

  function Models(hosts: seq<HostSummary>): seq<string>
  {
    seq(|hosts|, i requires 0 <= i < |hosts| => hosts[i].hardware.cpuModel)
  }

  /** The vendor and model lists hold one entry per host that counts, in
      host order. */
  lemma CpuListsFollowActiveHosts(hosts: seq<HostSummary>)
    ensures |Vendors(ActiveHosts(hosts))| == |Models(ActiveHosts(hosts))| == |ActiveIndices(hosts)|
    ensures forall j :: 0 <= j < |ActiveIndices(hosts)| ==>
              && ActiveIndices(hosts)[j] < |hosts|
              && Vendors(ActiveHosts(hosts))[j] == hosts[ActiveIndices(hosts)[j]].hardware.vendor
              && Models(ActiveHosts(hosts))[j] == hosts[ActiveIndices(hosts)[j]].hardware.cpuModel
  {
    ActiveHostsInOrder(hosts);
  }

  lemma SumsSnoc(hosts: seq<HostSummary>, h: HostSummary)
    ensures SumThreads(hosts + [h]) == SumThreads(hosts) + h.hardware.numCpuThreads
    ensures SumCores(hosts + [h]) == SumCores(hosts) + h.hardware.numCpuCores
  {
    assert (hosts + [h])[..|hosts|] == hosts;
  }

  /** Memory figures in MiB: total is the pool's limit, free is the limit
      less what the VMs use, each converted with truncating division. */
  function MemoryInfo(usage: Option<MemoryUsage>): (r: MemInfo)
    ensures usage.None? ==> r == MemInfo(0, 0)
    ensures usage.Some? ==> r.total * MI <= usage.value.maxUsage < (r.total + 1) * MI
    ensures usage.Some? ==> r.free == r.total - usage.value.overallUsage / MI
  {
    match usage
    case None => MemInfo(0, 0)
    case Some(u) =>
      var total := u.maxUsage / MI;
      MemInfo(total, total - u.overallUsage / MI)
  }

  /** As long as the VMs use no more than the limit, free memory lies
      between zero and the total. */
  lemma FreeMemoryBounded(usage: MemoryUsage)
    requires usage.overallUsage <= usage.maxUsage
    ensures 0 <= MemoryInfo(Some(usage)).free <= MemoryInfo(Some(usage)).total
  {
    var a, b := usage.overallUsage, usage.maxUsage;
    assert a / MI <= b / MI by {
      assert (a / MI) * MI <= a <= b < (b / MI + 1) * MI;
    }
  }

  /** `get_stats_from_cluster`, the query results given as the hosts'
      summaries (in order) and the resource pool's memory usage (None when
      the cluster has no resource pool or the pool reports no usage). */
  method GetStatsFromCluster(hosts: seq<HostSummary>, usage: Option<MemoryUsage>) returns (stats: Stats)
    ensures stats.cpu.vcpus == SumThreads(ActiveHosts(hosts))
    ensures stats.cpu.cores == SumCores(ActiveHosts(hosts))
    ensures stats.cpu.vendor == Vendors(ActiveHosts(hosts))
    ensures stats.cpu.model == Models(ActiveHosts(hosts))
    ensures stats.mem == MemoryInfo(usage)
  {
    var vcpus: nat, cores: nat := 0, 0;
    var vendor: seq<string>, model: seq<string> := [], [];
    for i := 0 to |hosts|
      invariant vcpus == SumThreads(ActiveHosts(hosts[..i]))
      invariant cores == SumCores(ActiveHosts(hosts[..i]))
      invariant vendor == Vendors(ActiveHosts(hosts[..i]))
      invariant model == Models(ActiveHosts(hosts[..i]))
    {
      var h := hosts[i];
      assert hosts[..i + 1][..i] == hosts[..i] && hosts[..i + 1][i] == h;
      assert ActiveHosts(hosts[..i + 1]) == ActiveHosts(hosts[..i]) + (if IsActive(h) then [h] else []);
      if !h.runtime.inMaintenanceMode && h.runtime.connectionState == "connected" {
        SumsSnoc(ActiveHosts(hosts[..i]), h);
        vcpus := vcpus + h.hardware.numCpuThreads;
        cores := cores + h.hardware.numCpuCores;
        vendor := vendor + [h.hardware.vendor];
        model := model + [h.hardware.cpuModel];
      } else {
        assert ActiveHosts(hosts[..i + 1]) == ActiveHosts(hosts[..i]);
      }
    }
    assert hosts[..|hosts|] == hosts;
    var mem := MemInfo(0, 0);
    if usage.Some? {
      var total := usage.value.maxUsage / MI;
      var consumed := usage.value.overallUsage / MI;
      mem := MemInfo(total, total - consumed);
    }
    stats := Stats(CpuInfo(vcpus, cores, vendor, model), mem);
  }

  // ---------------------------------------------------------------------
  // Cases from the test suite
  // ---------------------------------------------------------------------

  const XEON: HardwareSummary := HardwareSummary(8, 16, "Intel", "Intel(R) Xeon(R)")

  /** The CPU figures of two Xeon hosts, the first of them counting. */
  lemma XeonPair(host1: HostSummary, host2: HostSummary)
    requires host1.hardware == XEON && IsActive(host1) && host2.hardware == XEON
    ensures IsActive(host2) ==> ActiveHosts([host1, host2]) == [host1, host2]
    ensures !IsActive(host2) ==> ActiveHosts([host1, host2]) == [host1]
    ensures SumThreads([host1]) == 16 && SumCores([host1]) == 8
    ensures SumThreads([host1, host2]) == 32 && SumCores([host1, host2]) == 16
  {
    assert [host1, host2][..1] == [host1] && [host1][..0] == [];
    assert ActiveHosts([host1]) == [host1];
  }

  /** Two Xeon hosts, the second in the given state; a pool limit of
      5 GiB of which 2 GiB are used. */
  method TestGetStatsFromCluster(connectionState: string, maintenanceMode: bool) returns (stats: Stats)
    ensures connectionState == "connected" && !maintenanceMode ==>
              stats.cpu == CpuInfo(32, 16, ["Intel", "Intel"], ["Intel(R) Xeon(R)", "Intel(R) Xeon(R)"])
    ensures !(connectionState == "connected" && !maintenanceMode) ==>
              stats.cpu == CpuInfo(16, 8, ["Intel"], ["Intel(R) Xeon(R)"])
    ensures stats.mem == MemInfo(5120, 3072)
  {
    var host1 := HostSummary(XEON, RuntimeSummary("connected", false));
    var host2 := HostSummary(XEON, RuntimeSummary(connectionState, maintenanceMode));
    XeonPair(host1, host2);
    stats := GetStatsFromCluster([host1, host2], Some(MemoryUsage(5120 * MI, 2048 * MI)));
  }
}
