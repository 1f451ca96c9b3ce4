/**
 Where the VMs of one environment go: sizing, the choice of one host, the greedy loop over a
 shadow of all hosts, and the accounting that commits the plan. The agent's own sizing of the
 same request is stated beside the controller's.
 */
module Scheduler {
  import opened Model

  type Image = nat

  datatype Account = Account(user: string, sudo: bool)

  datatype Spec = Spec(
    image: Image,
    engine: Engine,
    cpu: Option<u32>,
    mem: Option<u32>,
    disk: Option<u32>,
    ports: seq<u16>,
    denyOutgoing: bool,
    sshKeys: seq<nat>,
    ssh: Option<Account>,
    isolatedNetwork: bool,
    guestFiles: map<string, string>)

  datatype Host = Host(
    id: HostId,
    address: nat,
    online: bool,
    engines: set<Engine>,
    storage: Storage,
    images: set<Image>,
    imageSizes: map<Image, u32>,
    resource: Resource)

  datatype Placement = Placement(hostId: HostId, address: nat, disk: u32)

  // ---- bootstrap accounts ----

  const ROOT: Account := Account("root", false)

  predicate Lower(c: char) { 'a' <= c <= 'z' }

  predicate ValidAccount(a: Account) {
    && 0 < |a.user| <= 32 && Lower(a.user[0])
    && forall i :: 0 <= i < |a.user| ==>
         Lower(a.user[i]) || '0' <= a.user[i] <= '9' || a.user[i] == '_' || a.user[i] == '-'
  }

  /** `resolve_options`: which bootstrap account a request asks for, if any. */
  function ResolveAccount(engine: Engine, requested: Option<Account>, keys: seq<nat>): Result<Option<Account>> {
    if requested.None? && keys == [] then Ok(None)
    else
      var account := if requested.Some? then requested.value else ROOT;
      if !ValidAccount(account) || keys == [] then Err(InvalidRequest)
      else if Resizable(engine) then Ok(Some(account))
      else if engine == Jail then if account == ROOT then Ok(None) else Err(InvalidRequest)
      else Err(Unsupported)
  }

  /** What the controller checks before it schedules; `spec.ssh` is already resolved. */
  ghost predicate ValidSpec(spec: Spec) {
    && (spec.disk.Some? ==> Resizable(spec.engine) && spec.disk.value > 0)
    && (spec.cpu.Some? ==> spec.cpu.value > 0)
    && (spec.mem.Some? ==> spec.mem.value > 0)
    && (spec.guestFiles != map[] ==> spec.engine == Firecracker)
    && exists requested :: ResolveAccount(spec.engine, requested, spec.sshKeys) == Ok(spec.ssh)
  }

  /** The agent resolves the resolved account again and finds the same one. */
  lemma ResolutionIsStable(spec: Spec)
    requires ValidSpec(spec)
    ensures ResolveAccount(spec.engine, spec.ssh, spec.sshKeys) == Ok(spec.ssh)
  {
  }

  // ---- disk sizing on both sides ----

  function Cpu(spec: Spec): u32 { if spec.cpu.Some? then spec.cpu.value else VM_CPU_DEFAULT }

  function GuestMem(spec: Spec): u32 { if spec.mem.Some? then spec.mem.value else VM_MEM_DEFAULT }

  function Mem(spec: Spec): u32 { MemoryReservation(spec.engine, GuestMem(spec)) }

  function RequestedDisk(spec: Spec): u32 {
    if spec.disk.Some? then spec.disk.value else DefaultDisk(spec.engine)
  }

  function Overhead(spec: Spec): u32 { DiskMib(spec.engine, spec.guestFiles != map[], spec.ssh.Some?) }

  /** `disk_reservation`: the controller's view of the disk that a spec will occupy. */
  function DiskReservation(spec: Spec, host: Host): Option<u32> {
    if spec.engine == Docker || spec.engine == Jail then Some(0)
    else
      var base := if spec.image in host.imageSizes then Some(host.imageSizes[spec.image]) else None;
      var disk := if spec.disk.Some? then spec.disk
                  else if spec.engine == Firecracker || spec.engine == Bhyve then
                    if base.Some? && base.value > 0 then base else None
                  else Some(DefaultDisk(spec.engine));
      if disk.None? || (base.Some? && disk.value < base.value) then None
      else CheckedAdd(disk.value, Overhead(spec))
  }

  /** The agent's sizing in `create_vm`, for a base image of `bytes` bytes. */
  function AgentDisk(engine: Engine, requested: u32, bytes: nat, overhead: u32): Result<u32> {
    if engine == Qemu && requested == 0 then Err(InvalidRequest)
    else match engine
      case Docker => Ok(0)
      case Jail => Ok(0)
      case Bhyve => if MibCeil(bytes) > U32_MAX then Err(ImageTooLarge) else Ok(MibCeil(bytes))
      case Firecracker =>
        if MibCeil(bytes) > U32_MAX then Err(ImageTooLarge)
        else if requested != 0 && requested < MibCeil(bytes) then Err(DiskTooSmall)
        else
          var disk := CheckedAdd(Max(requested, MibCeil(bytes)), overhead);
          if disk.None? then Err(ImageTooLarge) else Ok(disk.value)
      case Qemu => if requested < MibCeil(bytes) then Err(DiskTooSmall) else Ok(requested)
  }

  /**
   Both sides size every validated spec alike, including refusals and 32-bit overflow, unless
   the image is listed with size zero and its size is needed; the agent never lists that size.
   */
  lemma BothSidesSizeAlike(spec: Spec, host: Host, bytes: nat)
    requires ValidSpec(spec) && spec.image in host.imageSizes
    requires host.imageSizes[spec.image] == MibCeil(bytes)
    ensures ResolveAccount(spec.engine, spec.ssh, spec.sshKeys) == Ok(spec.ssh)
    ensures var agent := AgentDisk(spec.engine, RequestedDisk(spec), bytes, Overhead(spec));
            DiskReservation(spec, host) == (if agent.Ok? then Some(agent.value) else None)
            <==> !(MibCeil(bytes) == 0 && spec.disk.None? && (spec.engine == Firecracker || spec.engine == Bhyve))
  {
  }

  /**
   What the controller reserves: nothing for containers and jails; otherwise the requested disk,
   or the image where none is requested (40 GiB for Qemu), never less than a listed image, and
   4 MiB more for a Firecracker guest that is handed files or an SSH seed.
   */
  lemma ReservationCoversTheImage(spec: Spec, host: Host)
    ensures var r := DiskReservation(spec, host);
            var listed := spec.image in host.imageSizes;
            var extra := if spec.engine == Firecracker && (spec.guestFiles != map[] || spec.ssh.Some?) then 4 else 0;
            if spec.engine == Docker || spec.engine == Jail then r == Some(0)
            else
              && (r.Some? ==>
                    && r.value >= extra
                    && (listed ==> r.value - extra >= host.imageSizes[spec.image])
                    && (spec.disk.Some? ==> r.value - extra == spec.disk.value)
                    && (spec.disk.None? && spec.engine == Qemu ==> r.value == 40960)
                    && (spec.disk.None? && spec.engine != Qemu ==>
                          listed && host.imageSizes[spec.image] > 0 && r.value - extra == host.imageSizes[spec.image]))
              && (r.None? ==>
                    || (spec.disk.None? && spec.engine != Qemu && (!listed || host.imageSizes[spec.image] == 0))
                    || (listed && spec.disk.Some? && spec.disk.value < host.imageSizes[spec.image])
                    || (listed && spec.disk.None? && spec.engine == Qemu && host.imageSizes[spec.image] > 40960)
                    || (spec.disk.Some? && spec.disk.value + extra > U32_MAX)
                    || (listed && spec.disk.None? && host.imageSizes[spec.image] + extra > U32_MAX))
  {
  }

  /** What the agent sizes: enough for the image and for what is requested, and no more. */
  lemma AgentDiskCoversTheImage(engine: Engine, requested: u32, bytes: nat, overhead: u32)
    ensures var r := AgentDisk(engine, requested, bytes, overhead);
            match engine
            case Docker => r == Ok(0)
            case Jail => r == Ok(0)
            case Qemu => (r.Ok? <==> requested > 0 && bytes <= requested * 1048576) && (r.Ok? ==> r.value == requested)
            case Bhyve =>
              && (r.Ok? <==> bytes <= U32_MAX * 1048576)
              && (r.Ok? ==> bytes <= r.value * 1048576 < bytes + 1048576)
            case Firecracker =>
              && (r.Ok? <==>
                    if requested > 0 then bytes <= requested * 1048576 && requested + overhead <= U32_MAX
                    else bytes <= (U32_MAX - overhead) * 1048576)
              && (r.Ok? ==>
                && r.value >= overhead && bytes <= (r.value - overhead) * 1048576
                && (requested > 0 ==> r.value == requested + overhead)
                && (requested == 0 ==> (r.value - overhead) * 1048576 < bytes + 1048576))
  {
  }

  // ---- one placement ----

  /** The fleet catalogue, and the capability report as a predicate on host and spec. */
  datatype Catalogue = Catalogue(images: map<HostId, set<Image>>, supports: (HostId, Spec) -> bool)

  predicate Eligible(h: Host, spec: Spec, cat: Catalogue) {
    && h.online
    && cat.supports(h.id, spec)
    && spec.engine in h.engines
    && DiskReservation(spec, h).Some?
    && h.resource.CanFit(Cpu(spec), Mem(spec), DiskReservation(spec, h).value)
    && (cat.images == map[] || spec.engine == Docker || (h.id in cat.images && spec.image in cat.images[h.id]))
  }

  /** Volume-backed hosts come first for VMs, then the fullest memory. */
  predicate Before(a: Host, b: Host, spec: Spec) {
    var plainA := spec.engine != Docker && a.storage != Zvol;
    var plainB := spec.engine != Docker && b.storage != Zvol;
    if plainA == plainB then a.resource.MemFree() < b.resource.MemFree() else plainB
  }

  /** Host `i` is the head of the candidates after a stable sort. */
  ghost predicate Chosen(hosts: seq<Host>, spec: Spec, cat: Catalogue, i: nat) {
    && i < |hosts|
    && Eligible(hosts[i], spec, cat)
    && (forall j :: 0 <= j < |hosts| && Eligible(hosts[j], spec, cat) ==> !Before(hosts[j], hosts[i], spec))
    && (forall j :: 0 <= j < i && Eligible(hosts[j], spec, cat) ==> Before(hosts[i], hosts[j], spec))
  }

  /**
   What a host must offer: it is online with the engine and the capabilities, carries the image
   (unless containers or an empty catalogue make that moot), and has room for what is asked,
   with two CPUs and 1024 MiB where nothing is said and 128 MiB more for Firecracker.
   */
  lemma EligibleExactly(h: Host, spec: Spec, cat: Catalogue)
    ensures var r := h.resource;
            var cpu := if spec.cpu.Some? then spec.cpu.value else 2;
            var mem := (if spec.mem.Some? then spec.mem.value else 1024) + (if spec.engine == Firecracker then 128 else 0);
            var disk := DiskReservation(spec, h);
            mem <= U32_MAX ==>
              (Eligible(h, spec, cat) <==>
                 && h.online && cat.supports(h.id, spec) && spec.engine in h.engines
                 && (cat.images != map[] && spec.engine != Docker ==> h.id in cat.images && spec.image in cat.images[h.id])
                 && (cpu > 0 ==> r.cpuUsed + cpu <= r.cpuTotal)
                 && (mem > 0 ==> r.memUsed + mem <= r.memTotal)
                 && disk.Some?
                 && (disk.value > 0 ==> r.diskUsed + disk.value <= r.diskTotal))
  {
  }

  /** How much memory is left on a host, by its own numbers. */
  ghost function Unused(h: Host): int { Max(h.resource.memTotal - h.resource.memUsed, 0) }

  /**
   The chosen host among the eligible ones: a VM prefers volume-backed hosts, within its class
   the host has the least unused memory, and among equals it comes first. A container does not
   care about volumes.
   */
  lemma ChosenIsTheFullest(hosts: seq<Host>, spec: Spec, cat: Catalogue, i: nat, j: nat)
    requires Chosen(hosts, spec, cat, i) && j < |hosts| && j != i && Eligible(hosts[j], spec, cat)
    ensures spec.engine != Docker && hosts[j].storage == Zvol ==> hosts[i].storage == Zvol
    ensures spec.engine == Docker || hosts[i].storage == hosts[j].storage ==>
              && Unused(hosts[i]) <= Unused(hosts[j])
              && (Unused(hosts[i]) == Unused(hosts[j]) ==> i < j)
  {
  }

  ghost predicate PlacedAt(hosts: seq<Host>, spec: Spec, cat: Catalogue, p: Placement, i: nat) {
    && Chosen(hosts, spec, cat, i)
    && p == Placement(hosts[i].id, hosts[i].address, DiskReservation(spec, hosts[i]).value)
  }

  /** `place_vm`. */
  method PlaceVm(hosts: seq<Host>, spec: Spec, cat: Catalogue) returns (r: Result<Placement>)
    ensures r.Ok? <==> exists i :: 0 <= i < |hosts| && Eligible(hosts[i], spec, cat)
    ensures r.Ok? ==> exists i: nat :: PlacedAt(hosts, spec, cat, r.value, i)
    ensures r.Err? ==> r.error == NoPlacement
  {
    var best: Option<nat> := None;
    for k := 0 to |hosts|
      invariant best.None? ==> forall j :: 0 <= j < k ==> !Eligible(hosts[j], spec, cat)
      invariant best.Some? ==> best.value < k && Chosen(hosts[..k], spec, cat, best.value)
    {
      if Eligible(hosts[k], spec, cat) && (best.None? || Before(hosts[k], hosts[best.value], spec)) {
        best := Some(k);
      }
    }
    if best.None? { return Err(NoPlacement); }
    assert hosts[..|hosts|] == hosts;
    var h := hosts[best.value];
    r := Ok(Placement(h.id, h.address, DiskReservation(spec, h).value));
    assert PlacedAt(hosts, spec, cat, r.value, best.value);
  }

  // ---- whole environments ----

  /** The record planned for a placed spec. */
  function PlannedVm(spec: Spec, p: Placement, id: VmId, env: EnvId, revision: Token): Vm {
    Vm(NoBackups(revision), None, None, id, env, p.hostId, spec.image, spec.engine, Cpu(spec), GuestMem(spec),
       p.disk, NoIp, map[],
       Options(if spec.ssh.Some? then Some(0) else None, PortSet(spec.ports), KeySet(spec.sshKeys), spec.denyOutgoing,
               RequestedDisk(spec), spec.isolatedNetwork, if spec.guestFiles == map[] then None else Some(0)),
       None, VmState.Creating)
  }

  /** `Resource::account` folded over the VMs of one host. */
  function AccountFor(r: Resource, host: HostId, vms: seq<Vm>): Resource
    decreases |vms|
  {
    if vms == [] then r
    else
      var rest := AccountFor(r, host, vms[..|vms| - 1]);
      if vms[|vms| - 1].hostId == host then rest.Account(vms[|vms| - 1]) else rest
  }

  ghost function OnHost(vms: seq<Vm>, host: HostId): seq<Vm>
    decreases |vms|
  {
    if vms == [] then []
    else
      var last := vms[|vms| - 1];
      OnHost(vms[..|vms| - 1], host) + (if last.hostId == host then [last] else [])
  }

  lemma SumsGrow(rows: seq<Vm>, vm: Vm)
    ensures SumDisk(rows + [vm]) == SumDisk(rows) + TrueDisk(vm)
    ensures SumCpu(rows + [vm]) == SumCpu(rows) + (if vm.state == VmState.Stopped then 0 else vm.cpu)
    ensures SumMem(rows + [vm]) == SumMem(rows) + (if vm.state == VmState.Stopped then 0
                                                  else vm.mem + (if vm.engine == Firecracker then 128 else 0))
  {
    assert (rows + [vm])[..|rows|] == rows;
  }

  /** `total` is `r` with the true sums over `vms` added, up to saturation. */
  ghost predicate Adds(r: Resource, vms: seq<Vm>, total: Resource) {
    && total.cpuUsed == Min(r.cpuUsed + SumCpu(vms), U32_MAX)
    && total.memUsed == Min(r.memUsed + SumMem(vms), U32_MAX)
    && total.diskUsed == Min(r.diskUsed + SumDisk(vms), U32_MAX)
    && total.vmCount == Min(r.vmCount + |vms|, U32_MAX)
    && total.cpuTotal == r.cpuTotal && total.memTotal == r.memTotal && total.diskTotal == r.diskTotal
  }

  lemma AddsOneMore(r: Resource, vms: seq<Vm>, total: Resource, vm: Vm)
    requires Adds(r, vms, total)
    ensures Adds(r, vms + [vm], total.Account(vm))
  {
    SumsGrow(vms, vm);
    ReservationIsCappedSum(vm);
  }

  /** What accounting adds to a host: the true sums over the VMs on that host, up to saturation. */
  lemma {:induction false} AccountingIsCappedSum(r: Resource, host: HostId, vms: seq<Vm>)
    ensures Adds(r, OnHost(vms, host), AccountFor(r, host, vms))
    decreases |vms|
  {
    if vms != [] {
      var last := vms[|vms| - 1];
      var before := OnHost(vms[..|vms| - 1], host);
      AccountingIsCappedSum(r, host, vms[..|vms| - 1]);
      if last.hostId == host {
        AddsOneMore(r, before, AccountFor(r, host, vms[..|vms| - 1]), last);
      } else {
        assert OnHost(vms, host) == before;
      }
    }
  }

  /** The fleet after the VMs `vms` are accounted to their hosts. */
  function After(hosts: seq<Host>, vms: seq<Vm>): (after: seq<Host>)
    ensures |after| == |hosts|
    ensures forall i :: 0 <= i < |hosts| ==>
              after[i] == hosts[i].(resource := AccountFor(hosts[i].resource, hosts[i].id, vms))
  {
    seq(|hosts|, i requires 0 <= i < |hosts| =>
      hosts[i].(resource := AccountFor(hosts[i].resource, hosts[i].id, vms)))
  }

  predicate UniqueHosts(hosts: seq<Host>) {
    forall i, j :: 0 <= i < j < |hosts| ==> hosts[i].id != hosts[j].id
  }

  predicate CountsFit(hosts: seq<Host>, more: nat) {
    forall i :: 0 <= i < |hosts| ==> hosts[i].resource.vmCount + more <= U32_MAX
  }

  /** What one scheduling call works on: the names of the new records are drawn by the caller. */
  datatype Job = Job(hosts: seq<Host>, specs: seq<Spec>, cat: Catalogue,
                     ids: seq<VmId>, env: EnvId, revisions: seq<Token>)
  {
    predicate Shaped() { |ids| == |specs| == |revisions| }
  }

  ghost predicate ValidJob(job: Job) {
    && UniqueHosts(job.hosts) && CountsFit(job.hosts, |job.specs|)
    && job.Shaped()
    && forall k :: 0 <= k < |job.specs| ==> ValidSpec(job.specs[k])
  }

  /** Planned records for the first placements. */
  function Plan(job: Job, ps: seq<Placement>): (vms: seq<Vm>)
    requires job.Shaped() && |ps| <= |job.specs|
    ensures |vms| == |ps|
    ensures forall k :: 0 <= k < |ps| ==>
              vms[k] == PlannedVm(job.specs[k], ps[k], job.ids[k], job.env, job.revisions[k])
  {
    seq(|ps|, k requires 0 <= k < |ps| => PlannedVm(job.specs[k], ps[k], job.ids[k], job.env, job.revisions[k]))
  }

  /** A planned record asks for what the spec asks for, with the defaults where it says nothing. */
  lemma PlannedAsAsked(job: Job, ps: seq<Placement>, k: nat)
    requires job.Shaped() && |ps| <= |job.specs| && k < |ps|
    ensures var vm := Plan(job, ps)[k];
            var spec := job.specs[k];
            && vm.id == job.ids[k] && vm.envId == job.env && vm.hostId == ps[k].hostId && vm.disk == ps[k].disk
            && vm.image == spec.image && vm.engine == spec.engine
            && vm.cpu == (if spec.cpu.Some? then spec.cpu.value else 2)
            && vm.mem == (if spec.mem.Some? then spec.mem.value else 1024)
            && vm.options.requestedDisk == (if spec.disk.Some? then spec.disk.value
                                            else if spec.engine == Qemu then 40960 else 0)
            && vm.options.denyOutgoing == spec.denyOutgoing && vm.options.isolatedNetwork == spec.isolatedNetwork
            && vm.options.ports == (set p | p in spec.ports) && vm.options.sshKeys == (set key | key in spec.sshKeys)
            && (vm.options.ssh.Some? <==> spec.ssh.Some?)
            && (vm.options.guestConfigDigest.Some? <==> spec.guestFiles != map[])
            && vm.state == VmState.Creating && vm.error.None? && vm.pendingResources.None? && vm.ssh.None?
            && vm.backup.sequence == 0 && !HasArtifacts(vm.backup) && vm.backup.lastResult.None?
  {
  }

  ghost predicate WithinTotals(before: Resource, after: Resource) {
    && after.cpuUsed <= after.cpuTotal && after.memUsed <= after.memTotal
    && (before.diskUsed <= before.diskTotal ==> after.diskUsed <= after.diskTotal)
  }

  predicate Receives(ps: seq<Placement>, host: HostId) {
    exists k :: 0 <= k < |ps| && ps[k].hostId == host
  }

  /** What is known about the shadow after the placements made so far. */
  ghost predicate Packed(hosts: seq<Host>, vms: seq<Vm>, ps: seq<Placement>) {
    var after := After(hosts, vms);
    forall i :: 0 <= i < |hosts| ==>
      && after[i].resource.vmCount <= hosts[i].resource.vmCount + |ps|
      && hosts[i].resource.cpuTotal == after[i].resource.cpuTotal
      && hosts[i].resource.memTotal == after[i].resource.memTotal
      && hosts[i].resource.diskTotal == after[i].resource.diskTotal
      && (hosts[i].resource.diskUsed <= hosts[i].resource.diskTotal ==>
            after[i].resource.diskUsed <= after[i].resource.diskTotal)
      && (Receives(ps, hosts[i].id) ==> WithinTotals(hosts[i].resource, after[i].resource))
  }

  /** Placing one more VM on an eligible host adds without carry and stays within the totals. */
  lemma BookingFits(h: Host, spec: Spec, cat: Catalogue, p: Placement, id: VmId, env: EnvId, revision: Token)
    requires ValidSpec(spec) && Eligible(h, spec, cat) && h.resource.vmCount < U32_MAX
    requires p.disk == DiskReservation(spec, h).value
    ensures var r := h.resource;
            && r.cpuUsed + Cpu(spec) <= r.cpuTotal
            && r.memUsed + Mem(spec) <= r.memTotal
            && r.diskUsed + p.disk <= Max(r.diskUsed, r.diskTotal)
            && r.Account(PlannedVm(spec, p, id, env, revision)) ==
                 r.(cpuUsed := r.cpuUsed + Cpu(spec), memUsed := r.memUsed + Mem(spec),
                    diskUsed := r.diskUsed + p.disk, vmCount := r.vmCount + 1)
  {
  }

  lemma AfterStep(hosts: seq<Host>, vms: seq<Vm>, vm: Vm)
    ensures forall i :: 0 <= i < |hosts| ==>
              After(hosts, vms + [vm])[i].resource ==
                if vm.hostId == hosts[i].id then After(hosts, vms)[i].resource.Account(vm)
                else After(hosts, vms)[i].resource
  {
  }

  lemma PackedStep(hosts: seq<Host>, vms: seq<Vm>, ps: seq<Placement>, i: nat, spec: Spec, cat: Catalogue,
                   p: Placement, id: VmId, env: EnvId, revision: Token)
    requires UniqueHosts(hosts) && CountsFit(hosts, |ps| + 1) && Packed(hosts, vms, ps)
    requires ValidSpec(spec) && PlacedAt(After(hosts, vms), spec, cat, p, i)
    ensures var vms1 := vms + [PlannedVm(spec, p, id, env, revision)];
            && Packed(hosts, vms1, ps + [p])
            && BookedAt(After(hosts, vms), After(hosts, vms1), spec, p, i)
  {
    var vm := PlannedVm(spec, p, id, env, revision);
    var after := After(hosts, vms);
    var after1 := After(hosts, vms + [vm]);
    AfterStep(hosts, vms, vm);
    BookingFits(after[i], spec, cat, p, id, env, revision);
    forall j | 0 <= j < |hosts| && j != i ensures after1[j] == after[j] {
      assert hosts[j].id != hosts[i].id;
    }
    assert forall k :: 0 <= k < |ps| ==> (ps + [p])[k] == ps[k];
    forall j | 0 <= j < |hosts| && j != i && Receives(ps + [p], hosts[j].id) ensures Receives(ps, hosts[j].id) {
      var k :| 0 <= k < |ps + [p]| && (ps + [p])[k].hostId == hosts[j].id;
      assert ps[k].hostId == hosts[j].id;
    }
  }

  /** The shadow update of one placement, in exact (unsaturated) arithmetic. */
  ghost predicate BookedAt(shadow: seq<Host>, shadow1: seq<Host>, spec: Spec, p: Placement, i: nat) {
    && i < |shadow| == |shadow1|
    && (var r := shadow[i].resource;
        && r.cpuUsed + Cpu(spec) <= U32_MAX && r.memUsed + Mem(spec) <= U32_MAX
        && r.diskUsed + p.disk <= U32_MAX && r.vmCount + 1 <= U32_MAX
        && shadow1[i] == shadow[i].(resource :=
             r.(cpuUsed := r.cpuUsed + Cpu(spec), memUsed := r.memUsed + Mem(spec),
                diskUsed := r.diskUsed + p.disk, vmCount := r.vmCount + 1)))
    && forall j :: 0 <= j < |shadow| && j != i ==> shadow1[j] == shadow[j]
  }

  method FindHost(hosts: seq<Host>, id: HostId) returns (i: nat)
    requires exists k :: 0 <= k < |hosts| && hosts[k].id == id
    ensures i < |hosts| && hosts[i].id == id
    ensures forall k :: 0 <= k < i ==> hosts[k].id != id
  {
    i := 0;
    while hosts[i].id != id
      invariant i < |hosts|
      invariant forall k :: 0 <= k < i ==> hosts[k].id != id
      decreases |hosts| - i
    {
      i := i + 1;
    }
  }

  /** The fleet as it will be accounted once the placements `ps` are committed. */
  ghost function Shadow(job: Job, ps: seq<Placement>): seq<Host>
    requires job.Shaped() && |ps| <= |job.specs|
  {
    After(job.hosts, Plan(job, ps))
  }

  ghost predicate PlacedNext(job: Job, ps: seq<Placement>, p: Placement)
    requires job.Shaped() && |ps| < |job.specs|
  {
    exists i: nat :: PlacedAt(Shadow(job, ps), job.specs[|ps|], job.cat, p, i)
  }

  /** Every choice was the head of the sorted candidates of the shadow at that moment. */
  ghost predicate Greedy(job: Job, ps: seq<Placement>)
    requires job.Shaped() && |ps| <= |job.specs|
    decreases |ps|
  {
    ps == [] || (Greedy(job, ps[..|ps| - 1]) && PlacedNext(job, ps[..|ps| - 1], ps[|ps| - 1]))
  }

  lemma PlanAppend(job: Job, ps: seq<Placement>, p: Placement)
    requires job.Shaped() && |ps| < |job.specs|
    ensures Plan(job, ps + [p])
         == Plan(job, ps) + [PlannedVm(job.specs[|ps|], p, job.ids[|ps|], job.env, job.revisions[|ps|])]
  {
  }

  lemma GreedyAppend(job: Job, ps: seq<Placement>, p: Placement, i: nat)
    requires job.Shaped() && |ps| < |job.specs| && Greedy(job, ps)
    requires PlacedAt(Shadow(job, ps), job.specs[|ps|], job.cat, p, i)
    ensures Greedy(job, ps + [p])
  {
    assert (ps + [p])[..|ps|] == ps;
    assert PlacedNext(job, ps, p);
  }

  /** One more greedy choice, with its booking. */
  lemma GreedyStep(job: Job, ps: seq<Placement>, p: Placement, i: nat)
    requires ValidJob(job) && |ps| < |job.specs|
    requires Greedy(job, ps) && Packed(job.hosts, Plan(job, ps), ps)
    requires PlacedAt(Shadow(job, ps), job.specs[|ps|], job.cat, p, i)
    ensures Greedy(job, ps + [p]) && Packed(job.hosts, Plan(job, ps + [p]), ps + [p])
    ensures BookedAt(Shadow(job, ps), Shadow(job, ps + [p]), job.specs[|ps|], p, i)
  {
    var k := |ps|;
    assert CountsFit(job.hosts, k + 1);
    PackedStep(job.hosts, Plan(job, ps), ps, i, job.specs[k], job.cat, p, job.ids[k], job.env, job.revisions[k]);
    PlanAppend(job, ps, p);
    GreedyAppend(job, ps, p, i);
  }

  lemma UniqueAfter(hosts: seq<Host>, vms: seq<Vm>)
    requires UniqueHosts(hosts)
    ensures UniqueHosts(After(hosts, vms))
  {
  }

  lemma BookingIsUnique(shadow: seq<Host>, a: seq<Host>, b: seq<Host>, spec: Spec, p: Placement, i: nat)
    requires BookedAt(shadow, a, spec, p, i) && BookedAt(shadow, b, spec, p, i)
    ensures a == b
  {
  }

  /** The update of the shadow: the first host of that name is charged, with unchecked additions. */
  method Book(shadow: seq<Host>, spec: Spec, p: Placement, ghost at: nat) returns (shadow1: seq<Host>)
    requires UniqueHosts(shadow) && at < |shadow| && shadow[at].id == p.hostId
    requires var r := shadow[at].resource;
             && r.cpuUsed + Cpu(spec) <= U32_MAX && r.memUsed + Mem(spec) <= U32_MAX
             && r.diskUsed + p.disk <= U32_MAX && r.vmCount + 1 <= U32_MAX
    ensures BookedAt(shadow, shadow1, spec, p, at)
  {
    var i := FindHost(shadow, p.hostId);
    assert i == at;
    var u := shadow[i].resource;
    shadow1 := shadow[i := shadow[i].(resource := u.(
      cpuUsed := u.cpuUsed + Cpu(spec), memUsed := u.memUsed + Mem(spec),
      diskUsed := u.diskUsed + p.disk, vmCount := u.vmCount + 1))];
  }

  /** Scheduling got stuck behind the placements `ps`: no host of the shadow takes the next spec. */
  ghost predicate Stuck(job: Job, ps: seq<Placement>)
    requires job.Shaped()
  {
    && |ps| < |job.specs| && Greedy(job, ps)
    && forall i :: 0 <= i < |job.hosts| ==> !Eligible(Shadow(job, ps)[i], job.specs[|ps|], job.cat)
  }

  /** The choices so far are the greedy ones, and the shadow accounts for exactly these. */
  ghost predicate Underway(job: Job, ps: seq<Placement>, shadow: seq<Host>)
    requires job.Shaped() && |ps| <= |job.specs|
  {
    Greedy(job, ps) && shadow == Shadow(job, ps) && Packed(job.hosts, Plan(job, ps), ps)
  }

  /** One spec: the head of the candidates is charged in the shadow. */
  method PlaceNext(job: Job, k: nat, ghost ps: seq<Placement>, shadow: seq<Host>)
    returns (r: Result<Placement>, next: seq<Host>)
    requires ValidJob(job) && k == |ps| < |job.specs| && Underway(job, ps, shadow)
    ensures r.Ok? ==> Underway(job, ps + [r.value], next)
    ensures r.Err? ==> Stuck(job, ps) && next == shadow
  {
    next := shadow;
    r := PlaceVm(shadow, job.specs[k], job.cat);
    if r.Ok? {
      ghost var at: nat :| PlacedAt(shadow, job.specs[k], job.cat, r.value, at);
      GreedyStep(job, ps, r.value, at);
      UniqueAfter(job.hosts, Plan(job, ps));
      next := Book(shadow, job.specs[k], r.value, at);
      BookingIsUnique(shadow, next, Shadow(job, ps + [r.value]), job.specs[k], r.value, at);
    }
  }

  /**
   `schedule_env`. On success every spec got the head of the candidates, hosts that received
   a VM end within their totals, and the shadow is what committing the plan accounts.
   */
  method ScheduleEnv(job: Job) returns (r: Result<seq<Placement>>, shadow: seq<Host>)
    requires ValidJob(job)
    ensures r.Ok? ==>
              && |r.value| == |job.specs|
              && Greedy(job, r.value)
              && shadow == Shadow(job, r.value)
              && Packed(job.hosts, Plan(job, r.value), r.value)
    ensures r.Err? ==> exists ps: seq<Placement> :: Stuck(job, ps) && shadow == Shadow(job, ps)
  {
    var ps: seq<Placement> := [];
    shadow := job.hosts;
    for k := 0 to |job.specs|
      invariant |ps| == k && Underway(job, ps, shadow)
    {
      ghost var before := ps;
      var placed;
      placed, shadow := PlaceNext(job, k, ps, shadow);
      if placed.Err? {
        assert Stuck(job, before);
        return Err(placed.error), shadow;
      }
      ps := ps + [placed.value];
    }
    r := Ok(ps);
  }

  // ---- the placement section of environment creation ----

  ghost predicate UsesNoLess(a: Resource, b: Resource) {
    a.cpuUsed >= b.cpuUsed && a.memUsed >= b.memUsed && a.diskUsed >= b.diskUsed
  }

  lemma {:induction false} AccountingIsMonotone(a: Resource, b: Resource, host: HostId, vms: seq<Vm>)
    requires UsesNoLess(a, b)
    ensures UsesNoLess(AccountFor(a, host, vms), AccountFor(b, host, vms))
    decreases |vms|
  {
    if vms != [] { AccountingIsMonotone(a, b, host, vms[..|vms| - 1]); }
  }

  lemma {:induction false} AccountingInTwoParts(r: Resource, host: HostId, xs: seq<Vm>, ys: seq<Vm>)
    ensures AccountFor(r, host, xs + ys) == AccountFor(AccountFor(r, host, xs), host, ys)
    decreases |ys|
  {
    if ys == [] {
      assert xs + ys == xs;
    } else {
      assert (xs + ys)[..|xs + ys| - 1] == xs + ys[..|ys| - 1];
      AccountingInTwoParts(r, host, xs, ys[..|ys| - 1]);
    }
  }

  /** The reported usage of a host, raised to what the stored rows of that host account for. */
  function Raised(h: Host, rows: seq<Vm>): Host {
    var tracked := AccountFor(h.resource.Emptied(), h.id, rows);
    h.(resource := h.resource.(
      cpuUsed := Max(h.resource.cpuUsed, tracked.cpuUsed),
      memUsed := Max(h.resource.memUsed, tracked.memUsed),
      diskUsed := Max(h.resource.diskUsed, tracked.diskUsed)))
  }

  /** The accounting loop over the rows of one host. */
  method AccountRows(r: Resource, host: HostId, rows: seq<Vm>) returns (total: Resource)
    ensures total == AccountFor(r, host, rows)
  {
    total := r;
    for k := 0 to |rows|
      invariant total == AccountFor(r, host, rows[..k])
    {
      assert rows[..k + 1][..k] == rows[..k];
      if rows[k].hostId == host { total := total.Account(rows[k]); }
    }
    assert rows[..|rows|] == rows;
  }

  method RaiseFleet(hosts: seq<Host>, rows: seq<Vm>) returns (raised: seq<Host>)
    ensures |raised| == |hosts|
    ensures forall i :: 0 <= i < |hosts| ==> raised[i] == Raised(hosts[i], rows)
  {
    raised := [];
    for i := 0 to |hosts|
      invariant |raised| == i
      invariant forall j :: 0 <= j < i ==> raised[j] == Raised(hosts[j], rows)
    {
      var h := hosts[i];
      var tracked := AccountRows(h.resource.Emptied(), h.id, rows);
      raised := raised + [h.(resource := h.resource.(
        cpuUsed := Max(h.resource.cpuUsed, tracked.cpuUsed),
        memUsed := Max(h.resource.memUsed, tracked.memUsed),
        diskUsed := Max(h.resource.diskUsed, tracked.diskUsed)))];
    }
  }

  method CommitPlan(hosts: seq<Host>, planned: seq<Vm>) returns (committed: seq<Host>)
    ensures committed == After(hosts, planned)
  {
    committed := [];
    for i := 0 to |hosts|
      invariant |committed| == i
      invariant forall j :: 0 <= j < i ==> committed[j] == After(hosts, planned)[j]
    {
      var total := AccountRows(hosts[i].resource, hosts[i].id, planned);
      committed := committed + [hosts[i].(resource := total)];
    }
  }

  /** What one environment creation stores: new rows, and hosts charged for them. */
  datatype Stored = Stored(planned: seq<Vm>, hosts: seq<Host>)

  /**
   Placement and persistence in one critical section. The committed hosts are the scheduler's
   shadow, and they cover every stored row of the fleet together with the new ones.
   */
  method PlanEnvironment(job: Job, rows: seq<Vm>, nameTaken: bool) returns (r: Result<Stored>)
    requires ValidJob(job)
    ensures |job.specs| == 0 || |job.specs| > MAX_VMS ==> r == Err(InvalidRequest)
    ensures nameTaken || |rows| + |job.specs| > MAX_VMS ==> r.Err?
    ensures r.Ok? ==>
              && |rows| + |job.specs| <= MAX_VMS
              && exists raised: seq<Host>, ps: seq<Placement> ::
                   CommittedPlan(job, rows, raised, ps, r.value)
    ensures r.Ok? ==> |r.value.hosts| == |job.hosts| && forall i :: 0 <= i < |job.hosts| ==>
              UsesNoLess(r.value.hosts[i].resource,
                         AccountFor(job.hosts[i].resource.Emptied(), job.hosts[i].id, rows + r.value.planned))
    ensures r.Ok? ==> |r.value.hosts| == |job.hosts| && forall i :: 0 <= i < |job.hosts| ==>
              Covers(r.value.hosts[i].resource, OnHost(rows + r.value.planned, job.hosts[i].id))
  {
    if |job.specs| == 0 || |job.specs| > MAX_VMS { return Err(InvalidRequest); }
    if nameTaken { return Err(LifecycleConflict); }
    if |rows| + |job.specs| > MAX_VMS { return Err(VmLimit); }
    var raised := RaiseFleet(job.hosts, rows);
    var raisedJob := job.(hosts := raised);
    var ps, shadow := ScheduleEnv(raisedJob);
    if ps.Err? { return Err(ps.error); }
    var planned := Plan(raisedJob, ps.value);
    var committed := CommitPlan(raised, planned);
    r := Ok(Stored(planned, committed));
    assert CommittedPlan(job, rows, raised, ps.value, r.value);
    CommittedIsEnough(job, rows, raised, planned);
  }

  /** What is committed on each host accounts at least for its stored and its new rows. */
  lemma CommittedIsEnough(job: Job, rows: seq<Vm>, raised: seq<Host>, planned: seq<Vm>)
    requires |raised| == |job.hosts| && forall i :: 0 <= i < |raised| ==> raised[i] == Raised(job.hosts[i], rows)
    ensures forall i :: 0 <= i < |job.hosts| ==>
              && UsesNoLess(After(raised, planned)[i].resource,
                            AccountFor(job.hosts[i].resource.Emptied(), job.hosts[i].id, rows + planned))
              && Covers(After(raised, planned)[i].resource, OnHost(rows + planned, job.hosts[i].id))
  {
    forall i | 0 <= i < |job.hosts|
      ensures UsesNoLess(After(raised, planned)[i].resource,
                         AccountFor(job.hosts[i].resource.Emptied(), job.hosts[i].id, rows + planned))
      ensures Covers(After(raised, planned)[i].resource, OnHost(rows + planned, job.hosts[i].id))
    {
      var h := job.hosts[i];
      AccountingInTwoParts(h.resource.Emptied(), h.id, rows, planned);
      AccountingIsMonotone(raised[i].resource, AccountFor(h.resource.Emptied(), h.id, rows), h.id, planned);
      AccountingIsCappedSum(h.resource.Emptied(), h.id, rows + planned);
    }
  }

  /** The usage is at least the true sums over these VMs, up to saturation. */
  ghost predicate Covers(r: Resource, vms: seq<Vm>) {
    && r.cpuUsed >= Min(SumCpu(vms), U32_MAX)
    && r.memUsed >= Min(SumMem(vms), U32_MAX)
    && r.diskUsed >= Min(SumDisk(vms), U32_MAX)
  }

  ghost predicate CommittedPlan(job: Job, rows: seq<Vm>, raised: seq<Host>, ps: seq<Placement>, stored: Stored)
    requires ValidJob(job)
  {
    && |raised| == |job.hosts|
    && (forall i :: 0 <= i < |raised| ==> raised[i] == Raised(job.hosts[i], rows))
    && |ps| == |job.specs|
    && Greedy(job.(hosts := raised), ps)
    && stored.planned == Plan(job.(hosts := raised), ps)
    && stored.hosts == Shadow(job.(hosts := raised), ps)
    && Packed(raised, stored.planned, ps)
  }
}
