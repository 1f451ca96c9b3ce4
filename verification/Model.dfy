/**
 The persistent entities shared by the agent and the controller, and the reservation
 arithmetic computed from them. Machine integers are bounded explicitly: `u32` is a
 subset type and every saturating or checked operation of the program is written out.
 */
module Model {

  datatype Option<+T> = None | Some(value: T)

  datatype Result<+T> = Ok(value: T) | Err(error: Error)

  /** One constructor per distinguishable failure of the modelled operations. */
  datatype Error =
    | InvalidRequest | OperationReused | OperationUnfinished | StaleRevision
    | CompletedOperation | AdmissionDisabled | Unsupported | NotStopped
    | WorkerRunning | BackingOff | VmNotFound | VmChanged | InvalidCapacity
    | CapacityDiffers | BacklogFull | StagingUnfinished | NoBackup
    | GenerationChanged | SourceDiffers | NoBudget | SequenceExhausted
    | IntentDisappeared | OperationChanged | NoArtifact | CurrentInUse
    | StorageFault | WitnessChanged | ArtifactMissing | OwnerChanged
    | ArtifactReplaced | ForeignSnapshot | UnexpectedContents | WriterActive
    | LifecycleConflict | ResizeUnfinished | BadState | NoCapacity | EngineFault
    | DifferentParameters | ImageTooLarge | DiskTooSmall | AddressesExhausted
    | PortsExhausted | VmLimit | ShrinkRefused | ArtifactsPresent
    | OutcomeUnknown | OperationInProgress | HostOffline | NoPlacement

  // ---- machine integers ----

  const U16_MAX: nat := 0xFFFF
  const U32_MAX: nat := 0xFFFF_FFFF
  const U64_MAX: nat := 0xFFFF_FFFF_FFFF_FFFF
  const MIB: nat := 1024 * 1024

  type u16 = n: nat | n <= U16_MAX
  type u32 = n: nat | n <= U32_MAX
  type u64 = n: nat | n <= U64_MAX

  function Min(a: int, b: int): int { if a <= b then a else b }
  function Max(a: int, b: int): int { if a <= b then b else a }

  function SatAdd(a: u32, b: u32): u32 { Min(a + b, U32_MAX) }
  function SatSub(a: u32, b: u32): u32 { if a <= b then 0 else a - b }

  function CheckedAdd(a: u32, b: u32): Option<u32> {
    if a + b <= U32_MAX then Some(a + b) else None
  }

  /** `bytes.div_ceil(1024 * 1024)`. */
  function MibCeil(bytes: nat): nat { (bytes + MIB - 1) / MIB }

  // ---- names ----

  /** Opaque unique names: generations, revisions, operation identifiers. */
  type Token = nat
  type VmId = nat
  type EnvId = nat
  type HostId = nat

  /** Device and inode of a file, or the GUID of a dataset or snapshot. */
  type Identity = nat

  // ---- enumerations ----

  datatype Engine = Qemu | Firecracker | Bhyve | Docker | Jail
  datatype Storage = File | Zvol
  datatype Backend = Snapshot | Reflink
  datatype VmState = Running | Stopped | Paused | Creating | Failed | Deleting

  // ---- backup records ----

  datatype Action = Create | Restore | Delete

  datatype Request = Request(
    operationId: Token,
    expectedRevision: Token,
    action: Action,
    generation: Option<Token>)

  datatype Generation = Generation(
    id: Token,
    backend: Backend,
    rootBytes: nat,
    createdAt: nat,
    identity: Option<Identity>,
    dependencies: nat,
    restoreStaging: bool)

  datatype Pending = Pending(
    request: Request,
    artifact: Generation,
    diskIdentity: Identity,
    error: Option<Error>)

  datatype Receipt = Receipt(request: Request, completedAt: nat, error: Option<Error>)

  datatype BackupState = BackupState(
    revision: Token,
    sequence: u64,
    current: Option<Generation>,
    pending: Option<Pending>,
    retired: seq<Generation>,
    lastResult: Option<Receipt>,
    cleanupError: Option<Error>,
    cleanupRetryAt: nat,
    cleanupFailures: u32,
    forwarding: Option<Request>,
    forwardingReservedMib: u32,
    forwardingSettledSequence: Option<u64>)

  /** The state of a VM without any backup history. */
  function NoBackups(revision: Token): BackupState {
    BackupState(revision, 0, None, None, [], None, None, 0, 0, None, 0, None)
  }

  // ---- virtual machines ----

  datatype Ip = NoIp | Ip(hi: nat, lo: nat)

  datatype Resources = Resources(cpu: u32, mem: u32, disk: u32)

  datatype SshInfo = SshInfo(initialized: bool, ready: bool, observing: bool)

  /** What the error text of a record says, as far as later operations read it. */
  datatype Fault =
    | QueryFailed | NetworkPending | NetworkFailed | StopUnfinished
    | ResizeRecorded | Interrupted | AbsentFromSnapshot | OutcomeUnknownFault | OtherFault

  function PortSet(ports: seq<u16>): set<u16> { set p | p in ports }

  function KeySet(keys: seq<nat>): set<nat> { set k | k in keys }

  /** Ports and keys are stored sorted and without duplicates, so they are sets here. */
  datatype Options = Options(
    ssh: Option<nat>,
    ports: set<u16>,
    sshKeys: set<nat>,
    denyOutgoing: bool,
    requestedDisk: u32,
    isolatedNetwork: bool,
    guestConfigDigest: Option<nat>)

  datatype Vm = Vm(
    backup: BackupState,
    ssh: Option<SshInfo>,
    pendingResources: Option<Resources>,
    id: VmId,
    envId: EnvId,
    hostId: HostId,
    image: nat,
    engine: Engine,
    cpu: u32,
    mem: u32,
    disk: u32,
    ip: Ip,
    portMap: map<u16, u16>,
    options: Options,
    error: Option<Fault>,
    state: VmState)

  datatype Resource = Resource(
    cpuTotal: u32, cpuUsed: u32,
    memTotal: u32, memUsed: u32,
    diskTotal: u32, diskUsed: u32,
    vmCount: u32)
  {
    function CpuFree(): u32 { SatSub(cpuTotal, cpuUsed) }
    function MemFree(): u32 { SatSub(memTotal, memUsed) }
    function DiskFree(): u32 { SatSub(diskTotal, diskUsed) }

    predicate CanFit(cpu: u32, mem: u32, disk: u32) {
      CpuFree() >= cpu && MemFree() >= mem && DiskFree() >= disk
    }

    /** A stopped VM still counts with its disk and its slot, but not with CPU and memory. */
    function Account(vm: Vm): Resource {
      var counted := vm.state != Stopped;
      this.(diskUsed := SatAdd(diskUsed, ReservedDisk(vm)),
            vmCount := SatAdd(vmCount, 1),
            cpuUsed := if counted then SatAdd(cpuUsed, vm.cpu) else cpuUsed,
            memUsed := if counted then SatAdd(memUsed, MemoryReservation(vm.engine, vm.mem)) else memUsed)
    }

    /** The same totals with nothing in use. */
    function Emptied(): Resource {
      this.(cpuUsed := 0, memUsed := 0, diskUsed := 0, vmCount := 0)
    }
  }

  const MAX_VMS: nat := 1000
  const CONFIG_DISK_MIB: u32 := 4
  const VM_CPU_DEFAULT: u32 := 2
  const VM_MEM_DEFAULT: u32 := 1024
  const VM_DISK_DEFAULT: u32 := 40 * 1024
  const FIRECRACKER_HEADROOM: u32 := 128

  function MemoryReservation(engine: Engine, guestMib: u32): u32 {
    SatAdd(guestMib, if engine == Firecracker then FIRECRACKER_HEADROOM else 0)
  }

  /** Engines whose root disk can be sized, resized and bootstrapped with an SSH account. */
  predicate Resizable(engine: Engine) { engine == Qemu || engine == Firecracker }

  function DefaultDisk(engine: Engine): u32 {
    if engine == Qemu then VM_DISK_DEFAULT else 0
  }

  /** Firecracker needs an extra disk as soon as there are files or a seed to hand to the guest. */
  function DiskMib(engine: Engine, callerFiles: bool, sshSeed: bool): u32 {
    if engine == Firecracker && (callerFiles || sshSeed) then CONFIG_DISK_MIB else 0
  }

  function ConfigDiskMib(options: Options, engine: Engine): u32 {
    DiskMib(engine, options.guestConfigDigest.Some?, options.ssh.Some?)
  }

  /** Only a Firecracker guest with files or a bootstrap account has a configuration disk. */
  lemma ConfigurationTakesFourMib(options: Options, engine: Engine)
    ensures ConfigDiskMib(options, engine) ==
            match engine
            case Firecracker => if options.guestConfigDigest.None? && options.ssh.None? then 0 else 4
            case _ => 0
  {
  }

  // ---- reservations ----

  /** `Generation::reserved_mib`: a root too large for 32 bits reserves the maximum. */
  function GenerationMib(g: Generation): u32 {
    if MibCeil(g.rootBytes) <= U32_MAX then MibCeil(g.rootBytes) else U32_MAX
  }

  /** A generation reserves the fewest MiB that hold its root, unless these exceed 32 bits. */
  lemma ReservationHoldsTheRoot(g: Generation)
    ensures if g.rootBytes <= U32_MAX * 1048576 then
              g.rootBytes <= GenerationMib(g) * 1048576 < g.rootBytes + 1048576
            else GenerationMib(g) == 0xFFFF_FFFF
  {
  }

  /** The published generation, if any, followed by the retired ones. */
  function Committed(s: BackupState): seq<Generation> {
    (if s.current.Some? then [s.current.value] else []) + s.retired
  }

  function SatFold(acc: u32, gs: seq<Generation>): u32
    decreases |gs|
  {
    if gs == [] then acc else SatFold(SatAdd(acc, GenerationMib(gs[0])), gs[1..])
  }

  function PendingMib(s: BackupState): u32 {
    if s.pending.None? || s.pending.value.request.action == Delete then 0
    else GenerationMib(s.pending.value.artifact)
  }

  /** `State::reserved_mib`. */
  function ReservedMib(s: BackupState): u32 {
    SatAdd(SatFold(0, Committed(s)), Max(PendingMib(s), s.forwardingReservedMib))
  }

  predicate Busy(s: BackupState) { s.pending.Some? || s.forwarding.Some? }

  predicate HasArtifacts(s: BackupState) {
    s.current.Some? || s.retired != [] || Busy(s)
  }

  /** The disk of the record, or of its unfinished resize target if that is larger. */
  function BaseDisk(vm: Vm): u32 {
    match vm.pendingResources
    case None => vm.disk
    case Some(r) => Max(vm.disk, SatAdd(r.disk, ConfigDiskMib(vm.options, vm.engine)))
  }

  /** `Vm::reserved_disk`. */
  function ReservedDisk(vm: Vm): u32 {
    SatAdd(BaseDisk(vm), ReservedMib(vm.backup))
  }

  /** Root capacity recorded for the VM, without its configuration disk. */
  function RootMib(vm: Vm): u32 {
    SatSub(vm.disk, ConfigDiskMib(vm.options, vm.engine))
  }

  // ---- the same sums without saturation ----

  ghost function SumMib(gs: seq<Generation>): nat
    decreases |gs|
  {
    if gs == [] then 0 else GenerationMib(gs[0]) + SumMib(gs[1..])
  }

  ghost function TrueMib(s: BackupState): nat {
    SumMib(Committed(s)) + Max(PendingMib(s), s.forwardingReservedMib)
  }

  ghost function TrueDisk(vm: Vm): nat { BaseDisk(vm) + TrueMib(vm.backup) }

  /** Everything that the VMs of a table reserve on disk. */
  ghost function SumDisk(rows: seq<Vm>): nat
    decreases |rows|
  {
    if rows == [] then 0 else SumDisk(rows[..|rows| - 1]) + TrueDisk(rows[|rows| - 1])
  }

  /** A stopped VM uses no CPU; any other uses what is recorded. */
  ghost function SumCpu(rows: seq<Vm>): nat
    decreases |rows|
  {
    if rows == [] then 0
    else
      var last := rows[|rows| - 1];
      SumCpu(rows[..|rows| - 1]) + (match last.state case Stopped => 0 case _ => last.cpu)
  }

  /** A stopped VM uses no memory; a Firecracker guest needs 128 MiB beyond its own. */
  ghost function SumMem(rows: seq<Vm>): nat
    decreases |rows|
  {
    if rows == [] then 0
    else
      var last := rows[|rows| - 1];
      SumMem(rows[..|rows| - 1])
      + match last.state
        case Stopped => 0
        case _ => (match last.engine case Firecracker => last.mem + 128 case _ => last.mem)
  }

  lemma {:induction false} SatFoldIsCappedSum(acc: u32, gs: seq<Generation>)
    ensures SatFold(acc, gs) == Min(acc + SumMib(gs), U32_MAX)
    decreases |gs|
  {
    if gs != [] {
      SatFoldIsCappedSum(SatAdd(acc, GenerationMib(gs[0])), gs[1..]);
    }
  }

  /** Saturation is the only way in which the reported reservation differs from the true sum. */
  lemma ReservationIsCappedSum(vm: Vm)
    ensures ReservedMib(vm.backup) == Min(TrueMib(vm.backup), U32_MAX)
    ensures ReservedDisk(vm) == Min(TrueDisk(vm), U32_MAX)
  {
    SatFoldIsCappedSum(0, Committed(vm.backup));
  }

  /** `n` copies of a disk of `root` MiB. */
  ghost function Times(n: nat, root: nat): nat {
    if n == 0 then 0 else root + Times(n - 1, root)
  }

  lemma {:induction false} TimesMonotone(m: nat, n: nat, root: nat)
    requires m <= n
    ensures Times(m, root) <= Times(n, root)
  {
    if m < n { TimesMonotone(m, n - 1, root); }
  }

  lemma TimesFour(n: nat, root: nat)
    requires n <= 4
    ensures Times(n, root) <= 4 * root
  {
    TimesMonotone(n, 4, root);
    assert Times(4, root) == root + Times(3, root);
    assert Times(3, root) == root + Times(2, root);
    assert Times(2, root) == root + Times(1, root);
    assert Times(1, root) == root + Times(0, root);
  }

  /** A sum over generations of one size counts them. */
  lemma {:induction false} SumMibUniform(gs: seq<Generation>, root: nat)
    requires forall i :: 0 <= i < |gs| ==> GenerationMib(gs[i]) == root
    ensures SumMib(gs) == Times(|gs|, root)
    decreases |gs|
  {
    if gs != [] {
      SumMibUniform(gs[1..], root);
    }
  }
}
